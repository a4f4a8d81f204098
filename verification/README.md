# Wave Archive: a verified model

Wave Archive is an audio backend. Recordings are transcribed by queued jobs, the transcript is merged with
speaker turns, grouped into sentences, analysed and translated by further jobs, and each day's analyses are
summarised. Several workers share one database; people edit, reprocess and delete meanwhile. This project
models that behaviour in Dafny and proves what it keeps.

## The model

Every database transaction is one atomic step over the tables in `Schema.dfy`. `Queue.dfy` and `Services.dfy`
say, as functions of the tables, what each transaction leaves; a refused transaction leaves the tables as they
were. `Protocol.dfy` makes these the steps of a run: any interleaving of uploads, requests, claims, heartbeats,
stage changes, reads, completions, failures, recoveries, edits, deletions and switch changes, at non-decreasing
times in microseconds. A worker that crashes is one that takes no further step. A claim, an upload or a queued
job draws an identifier that was never used before; in particular a recording id is never used again after
deletion. `Db` is the tables, `World` adds what the workers hold and three histories no step reads.

The same transactions appear in the program's own form as classes whose methods assign the tables:
`Database.dfy`, `Persisters.dfy`, `LeaseQueue.dfy`, `RecordingService.dfy` and `Worker.dfy`. Each method is proved
to leave exactly the tables the function says, so what is proved about runs holds of them. `Recovery.dfy` shows
that a recovery batch, which is one transaction over many rows, is a stretch of single-row steps.

| files | what they prove |
|---|---|
| `Jobs`, `Keeping` | the invariants of jobs and recordings, over every run |
| `Fencing` | what claim tokens fence: refusal, absorbing ends, one commit |
| `Work`, `Starvation` | bounded work, and bounded waiting |
| `Endings`, `Leases` | how attempts end, what is handed on, how long a retry and a lease last |
| `Ledger` | the activity log balances |
| `Freshness` | what an owned job read is what it commits against |
| `ContentMoves`, `Requests` | what each step writes; revisions, and no lost update |
| `Summaries`, `DayReads`, `Days` | day summaries as a guarded cache, and what a day reads |
| `Translations`, `CarryLaws`, `TranslationWrites`, `RenderingLaws`, `TranscriptEdit` | hand-written renderings and segment numbers under rewriting |
| `Sentences`, `SentenceLaws`, `Speakers`, `Merge`, `MergeLaws`, `VoiceLaws` | words to speaker segments to sentences |
| `Chunking`, `Reducing`, `DayReduction`, `Grounding` | bounded requests, hierarchical reduction, quotations |
| `DayList`, `Limiter` | the day list's early stop, the login limiter |
| `Prelude`, `Text`, `Sorting` | small shared tools |

Timestamps inside a recording are reals. Whisper, the diarization, the language model and file storage are not
part of this model: their results are arbitrary values that meet the checks in `processing/contracts.py`, and
a model's replies are an arbitrary function.

## Where the code differs from what it says

- The day reduce says each pass at least halves the partial results. A pass is only sure to remove one. For every
  chunk size the settings accept, six passes always bring n partial summaries to one if and only if n is at most
  seven (`DayReduction.ConvergesIffAtMostSeven`).
- The claim order is not strictly first come, first served: an upload is dated by its arrival, before its file is
  stored, so it can go ahead of a job that became available meanwhile; it does so exactly when it is dated earlier,
  or ties and wins by creation and id (`Starvation.UploadOvertakesIff`, with a run in `Starvation.UploadOvertakes`).
  Among transactions that happen at their own time, as in this model, only such ties can do it otherwise. In the
  code a request, a failure and a completion read the clock before they wait for row locks, so their dates too may
  lie before their commit, by as long as that wait.
- `group_sentences` raises for a valid transcript in which a greedy span ends before it starts. It groups if and
  only if there is no such span (`Sentences.GroupsUnlessInverted`), which segments in time order guarantee.
- A quotation of nothing but whitespace counts as grounded and is kept as the empty text, and only such a one is
  (`Grounding.EmptyIffBlank`). The result's checks then refuse the empty text, so a single blank quotation of an
  existing segment fails the whole analysis; so does one kept from a segment that ends at time zero, and nothing else
  about its quotations does (`Grounding.ResultFailsIff`).
- Retry-After is computed from the oldest failure. Nothing stops more failures than the limit from being recorded,
  since a login checks first and records later; then the key stays refused until newer failures leave, which can be
  almost a window after the time told (`Limiter.TwoFailuresOneAllowed`). Even at the limit, rounding can tell up to
  half a second too little (`Limiter.OneFailureRoundedDown`). `Limiter.RetryAfterSuffices` says exactly when the
  value is enough.

## Model

| member | source | states |
|---|---|---|
| `Keeping.RunKeepsCore` | src/audio_server/db/models.py:213-226 | In every reachable state a recording and a day have at most one queued or processing job, a job holds a token and a lease exactly while it processes, attempts stay below the maximum while queued and between one and the maximum while processing, and recording status follows the transcription job. |
| `Jobs.StatusTellsJob` | src/audio_server/jobs/queue.py:571-576 | A recording is queued, or processing, if and only if its active transcription job is; an active analysis or translation job means the recording is completed. |
| `Keeping.HandOffKeeps` | src/audio_server/jobs/queue.py:272-331 | A successor is only inserted behind a terminal predecessor that was the only active job, so the hand-off never trips the one-active-job index. |
| `Fencing.StepEvolves` | src/audio_server/jobs/queue.py:523-903 | Whatever transaction commits, each job row is unchanged, goes on or ends under its own claim, starts under the claim just made, or is new and queued. |
| `Fencing.LostForGood` | src/audio_server/jobs/queue.py:905-919 | Over a whole run: once a claim no longer owns its job, it never owns it again. |
| `Fencing.LostIsRefused` | src/audio_server/jobs/queue.py:602-622 | A heartbeat, stage, completion or failure under a claim that does not own its job leaves every table as it was. |
| `Fencing.EndingLosesClaim` | src/audio_server/jobs/queue.py:668-903 | Completion, failure and recovery each take the job away from the claim that held it. |
| `Fencing.OwnedIsLatest` | src/audio_server/jobs/queue.py:589-599 | A claim that owns its job is the one its latest attempt was handed, with the row's scope, kind and attempt number. |
| `Fencing.TerminalForGood` | src/audio_server/jobs/queue.py:683-687 | Over a whole run: a completed or failed job keeps every column for as long as it exists. |
| `Fencing.CommitsOnce` | src/audio_server/jobs/queue.py:668-715 | Over a whole run at most one transaction commits a job's results. |
| `Work.WorkIsBounded` | src/audio_server/jobs/queue.py:293-316 | Over a whole run a recording or a day is claimed at most max_attempts times for each step that an accepted request for it can lead to, under any failures, crashes and switch changes; the claims so far plus the work still possible stay within that, and a refused request allows none. |
| `Work.GrantedIsBounded` | src/audio_server/jobs/queue.py:214-235 | That is at most 3 * max_attempts for each accepted request on a recording, and max_attempts on a day. |
| `Work.StepSpends` | src/audio_server/jobs/queue.py:717-810 | Each step spends: the work a scope may still cause drops with every claim and grows only by an accepted request, by the attempts of the steps that request can lead to. |
| `Starvation.NoStarvation` | src/audio_server/jobs/queue.py:537-547 | Over a whole run: while an available job waits and no accepted request overtakes it, the jobs a claim would take before it only leave, and workers that accept its kind make at most as many claims as there were such jobs. |
| `Starvation.TakenInTheEnd` | src/audio_server/jobs/queue.py:523-547 | One claim more than that by workers that accept its kind, and the job itself has been claimed. |
| `Starvation.StepShrinksAhead` | src/audio_server/jobs/queue.py:306-316 | For a job that is available, a step lets nothing new ahead of it if and only if it is not an accepted request dated earlier, or as early and created earlier, or both at once with a smaller id; a claim by a worker that accepts its kind takes one of those ahead. |
| `Starvation.UploadOvertakesIff` | src/audio_server/services/recording_service.py:199-240 | An upload goes ahead of a job if and only if it is dated before the job's availability, or ties with it and wins by creation and id. |
| `Starvation.UploadOvertakes` | src/audio_server/services/recording_service.py:1268-1276 | A run in which an upload that arrived at 4 and is stored at 6 is claimed before a job that has been available since 5. |
| `Endings.StopsByEnding` | src/audio_server/jobs/queue.py:668-903 | Only the completion or the failure by its owner, or a recovery, takes a job out of an attempt. |
| `Endings.AttemptEnds` | src/audio_server/jobs/queue.py:668-903 | Over a whole run whatever ends an attempt leaves one of three rows, column by column: done, queued again after its delay, or given up; and every other job row but that of the next step stays as it was. |
| `Endings.EndedJobHandsOn` | src/audio_server/jobs/queue.py:272-331 | Over a whole run, after an attempt has ended: a job that is queued again is the only active one of its recording and nothing is added. A full job that completed is followed by the analysis if that is on, else by the translation if that is on; an analysis that had a follow-up and ended for good by the translation if that is on; anything else by nothing, and then no job of the recording is active. What follows is new, queued, has the same maximum, no attempt yet and is available one microsecond after the end. |
| `Endings.CompletionIs` | src/audio_server/jobs/queue.py:680-715 | A completion that lands marks the row done, records its event once with that of the next step, and marks the recording of a full job completed. |
| `Endings.FailureIs` | src/audio_server/jobs/queue.py:717-903 | A failure queues the job again if and only if it may be retried and an attempt is left, a recovery if and only if one is left; otherwise the job is given up. The row, its note, the recording status and the one event are stated for each. |
| `Endings.RetryWaits` | src/audio_server/jobs/queue.py:740-760 | Over a whole run: a job queued again at t after its a-th attempt is claimed in no later step before t + min(base * 2^min(a-1, 30), cap); until it is claimed it stays as it is, and at a moment u a worker of its kind can take it if and only if u is at or past that. |
| `Endings.DelayIsWait` | src/audio_server/jobs/queue.py:101-121 | The delay is the base doubled once for each earlier attempt, at most thirty times, up to the cap. |
| `Leases.ClaimStarts` | src/audio_server/jobs/queue.py:552-600 | A claim takes a queued job that is due, counts one attempt more, stores token, worker, stage and a lease from now, clears the failure and finish of the attempt before, and tells the recording of a full job and the log. |
| `Leases.LeaseIsLastRenewal` | src/audio_server/jobs/queue.py:602-622 | Over a whole run: the lease of an owned job began with its owner's last claim, heartbeat or stage change, and the job can be recovered at a moment if and only if that is at least the lease time later. |
| `Leases.RecoveryWaits` | src/audio_server/jobs/queue.py:825-838 | Over a whole run: while a claim owns its job, no recovery touches the job before the lease time after each of those signs of life is over. |
| `Leases.StageIsRecorded` | src/audio_server/jobs/queue.py:624-666 | A new stage is stored with a fresh lease and recorded once for its attempt; without ownership, or for a stage of the queue's own, nothing changes. |
| `Ledger.RunKeepsLedger` | src/audio_server/activity/repository.py:42-74 | In every reachable state no event is recorded twice, and each recording job has one queued event, as many started events as attempts, and as many end events as attempts, less one while it processes. |
| `Freshness.RunKeepsFresh` | src/audio_server/services/recording_service.py:662-677 | In every reachable state every recording's translation table is whole, and what the owner of an analysis or translation job read is the recording's transcript as it stands. |
| `Freshness.CommitSeesWhatItRead` | src/audio_server/worker_runtime.py:163-200 | When an analysis or a translation commits, its recording exists and its transcript is exactly the one the job read after its claim. |
| `Freshness.TranslationCommitIsExact` | src/audio_server/worker_runtime.py:499-504 | So no rendering is dropped as misplaced, and after a completed translation commit each sentence has exactly one row: a manual one, or a fresh machine row that records its text. |
| `Freshness.ActiveExcludes` | src/audio_server/services/recording_service.py:866-877 | An owned analysis or translation job is active, and no other job of its recording is. |
| `ContentMoves.StepWrites` | src/audio_server/worker_runtime.py:240-297 | Whatever step is taken, the content of a recording changes only by a result that lands or an edit that is accepted, and then by exactly the columns stated for that kind of result or edit. |
| `ContentMoves.CompletionLandsIff` | src/audio_server/worker_runtime.py:163-240 | The result of an owner lands, except a transcription that cannot carry the manual renderings and a summary of a day that changed since it was read. |
| `ContentMoves.SaveLandsIff` | src/audio_server/services/recording_service.py:602-660 | An edit is accepted if and only if its recording exists at the expected revision of that content, no job of it is waiting or running, and it fits: a complete transcript, editable rows, or quotations that stand in their segments for a recording that was analysed or has a job. |
| `ContentMoves.RunGrows` | src/audio_server/services/recording_service.py:570-600 | Over a whole run no revision of a recording falls, and segments, analysis and translations each change only together with their own revision. |
| `ContentMoves.SaveReplacesWhatWasSeen` | src/audio_server/services/recording_service.py:602-625 | Over a whole run: an accepted edit replaces exactly the content that stood at the revision its author named. |
| `ContentMoves.NoLostUpdate` | src/audio_server/services/recording_service.py:602-625 | Over a whole run: of two edits of the same content at the same revision at most one is accepted. |
| `ContentMoves.ReadingIsKept` | src/audio_server/worker_runtime.py:553-580 | No step takes a stored reading away or changes it but a completed analysis and a manual edit. |
| `Summaries.DeletedNeverReappears` | src/audio_server/services/recording_service.py:898-912 | In every reachable state every recording that a stored summary names, as a source or a key point, exists and lies on that day. |
| `Summaries.StalenessIsExact` | src/audio_server/services/daily_service.py:329-335 | In every reachable state a completed summary that is not reported stale was built from precisely the readings the day holds: same recordings, same content. |
| `Summaries.StepExtendsHistory` | src/audio_server/worker_runtime.py:553-580 | Every writer that changes what a day reads of a recording bumps its analysis revision, so (recording, revision) determines the content for ever. |
| `DayReads.DayReadIs` | src/audio_server/services/daily_service.py:297-327 | A recording is in a day's read if and only if it began between the day's midnights in Japan, its analysis is completed and its reading has a Japanese description that is not blank; what is read is that reading, at its present revision. |
| `DayReads.StaleIff` | src/audio_server/services/daily_service.py:329-335 | A completed summary is stale if and only if the day's readable recordings, or their revisions, are not those it was written from. |
| `DayReads.CurrentSummaryIsTheDay` | src/audio_server/services/daily_service.py:329-335 | In every reachable state a summary that is not stale was built from exactly the stored readings of its day's readable recordings. |
| `DayReads.DayIsQueuedIff` | src/audio_server/services/daily_service.py:182-208 | A day is queued if and only if some recording is readable on it and it has no active job; one new job is added and nothing else changes. |
| `DayReads.RewordedIsNotRead` | src/audio_server/services/daily_service.py:297-327 | Over a whole run: from the step that stores other words for a recording, by an edit or a new transcription, until an analysis of it completes or is saved by hand, it is readable on no day, no worker reads it for a day, no summary written names it, and no day is queued for it alone. |
| `Requests.SummaryIsOfTheDay` | src/audio_server/worker_runtime.py:585-606 | A summary that lands has as its sources exactly the recordings readable on the day at that moment, each at its present revision, and the text and key points of its worker. |
| `Requests.KeyPointPlaces` | src/audio_server/processing/daily_summary.py:307-326 | A key point is kept if and only if its number names a recording of the prompt; the kept ones keep their order. |
| `Summaries.KeyPointsNameDigests` | src/audio_server/processing/daily_summary.py:307-331 | A key point names a recording of the numbering the model was shown; an index outside it is dropped. |
| `Days.WindowIsDay` | src/audio_server/services/daily_service.py:47-64 | A moment lies in a day's UTC window if and only if its Japan-time day is that day. |
| `Queue.DelayDoubles` | src/audio_server/jobs/queue.py:101-121 | The first failure waits the base delay and each later one twice the one before, up to the cap. |
| `Queue.FirstEnabledIsFirst` | src/audio_server/jobs/queue.py:293-299 | The hand-off goes to the first step of the rest of the chain that is switched on, and to none if and only if all of them are off. |
| `Tables.Database.QueueFollowUp` | src/audio_server/jobs/queue.py:272-331 | The loop over the switches leaves the tables of the hand-off, which Endings.EndedJobHandsOn states case by case. |
| `Tables.Database.AppendActivity` | src/audio_server/activity/repository.py:42-74 | An event whose job, attempt, type and stage are already recorded is not recorded again. |
| `Tables.Database.UpdateSwitches` | src/audio_server/services/processing_settings_service.py:58-81 | Only the switches given change; a missing row starts from the defaults. |
| `Tables.Database.HasActiveJob` | src/audio_server/jobs/queue.py:334-338 | True exactly when a queued or processing job has the scope. |
| `Requests.UploadStores` | src/audio_server/services/recording_service.py:1240-1290 | An upload stores an empty queued recording, one full job with an analysis to follow, dated by its arrival, and one event. |
| `Requests.RequestQueues` | src/audio_server/services/recording_service.py:963-1045 | A request is accepted if and only if the recording exists in a status that permits it, no job of it is waiting or running, and a translation has a transcript; a refused one changes nothing. |
| `Requests.RequestStores` | src/audio_server/services/recording_service.py:963-1045 | An accepted request adds one job of the kind asked for, available at once, with its event, and puts the recording of a full job back in the queue. |
| `Requests.DeletionRemoves` | src/audio_server/services/recording_service.py:854-925 | A deletion is accepted if and only if no job of the recording is waiting or running; it removes exactly the recording, its jobs, its log entries and the summary of the day in Japan on which it began. |
| `Requests.SwitchesChange` | src/audio_server/services/processing_settings_service.py:58-81 | Each switch not given keeps its value, on where no row is stored. |
| `LeaseQueue.JobQueue.FirstClaimable` | src/audio_server/jobs/queue.py:537-550 | The row the claim query orders first; none exactly when no row qualifies. |
| `LeaseQueue.JobQueue.ClaimNext` | src/audio_server/jobs/queue.py:523-600 | Nothing is claimed if and only if nothing is claimable; otherwise the first row by availability, creation and id is leased, logged and described by the claim returned. |
| `LeaseQueue.JobQueue.Heartbeat` | src/audio_server/jobs/queue.py:602-622 | Succeeds exactly for the owner and moves only the lease. |
| `LeaseQueue.JobQueue.AdvanceStage` | src/audio_server/jobs/queue.py:624-666 | Succeeds exactly for the owner and a stage that is not the queue's own, and records the stage from the claim. |
| `LeaseQueue.JobQueue.Complete` | src/audio_server/jobs/queue.py:668-715 | Results, completion and hand-off commit together behind the fence, or nothing does. |
| `LeaseQueue.JobQueue.Fail` | src/audio_server/jobs/queue.py:717-810 | Requeues with a delay while an attempt is left and the failure is retryable, otherwise gives up, and says which; a given-up analysis or translation still hands off. |
| `LeaseQueue.JobQueue.ExpiredBatch` | src/audio_server/jobs/queue.py:825-838 | The oldest expired leases, as many as there are up to the limit. |
| `LeaseQueue.JobQueue.RecoverExpired` | src/audio_server/jobs/queue.py:812-903 | The batch is recovered in order in one transaction; the counts are those of the rows with and without an attempt left. |
| `Recovery.BatchIsRecoverySteps` | src/audio_server/jobs/queue.py:839-903 | A recovery batch equals one single-lease step of a run after another, and none of them can fail. |
| `Workers.SettlingEndsClaim` | src/audio_server/jobs/worker.py:233-277 | Whatever the processing or the result writer raises, the job is not left running under the claim, unless the lease was lost. |
| `Workers.SettlingDecides` | src/audio_server/jobs/worker.py:190-277 | How an owned claim ends: a result that lands completes the job; a failure of the program's own carries its code and is retried as it says; anything unexpected is retried; a day that changed under its summary is not. |
| `Workers.Worker.RunOnce` | src/audio_server/jobs/worker.py:190-277 | Reports nothing processed exactly when nothing is claimable; otherwise the first claimable job is claimed and settled by completion, by the failure raised, or by an unexpected retryable one. |
| `RecordingDesk.RecordingService.RequestWork` | src/audio_server/services/recording_service.py:963-1045 | A request is refused for a missing recording, a status that does not allow it, an active job or a missing transcript, in that order; otherwise one job is queued. |
| `RecordingDesk.RecordingService.QueueDaySummary` | src/audio_server/services/daily_service.py:182-208 | A day is queued exactly when it has something to summarise and no active job. |
| `RecordingDesk.RecordingService.SaveEdit` | src/audio_server/services/recording_service.py:602-660 | An edit is saved only at the expected revision, with no active job and, for an analysis, with every quotation standing in the segment it names; and then whole. |
| `RecordingDesk.RecordingService.DeleteRecording` | src/audio_server/services/recording_service.py:854-925 | Deletion takes the recording, its jobs, its log and the summary of its day, and nothing else. |
| `RecordingDesk.RecordingService.ReprocessAnalyses` | src/audio_server/services/recording_service.py:712-757 | A batch is one independent request per recording, and every recording is either queued or counted as skipped. |
| `Persisters.PersistTranscript` | src/audio_server/worker_runtime.py:240-297 | The transcript is replaced, an analysis of the old words goes stale under a new revision, and the hand-written renderings are carried over. |
| `Persisters.PersistAnalysis` | src/audio_server/worker_runtime.py:544-582 | A run without a reading keeps the reading the recording has. |
| `Persisters.PersistTranslations` | src/audio_server/worker_runtime.py:527-541 | A skipped run keeps the stored rows and still counts as a revision. |
| `Persisters.PersistDay` | src/audio_server/worker_runtime.py:585-606 | The summary is written if and only if the day still holds the revisions it was built from. |
| `Translations.RetranscriptionConserves` | src/audio_server/worker_runtime.py:328-466 | The multiset of (source sentence, rendering) over manual rows is the same before and after a re-transcription. |
| `CarryLaws.RetranscriptionKeepsManual` | src/audio_server/worker_runtime.py:328-399 | There is an increasing map from the rows after a re-transcription onto exactly the manual rows before it; each has the source sentence and the text of its row. |
| `CarryLaws.MachineRowsVanish` | src/audio_server/worker_runtime.py:250-254 | A table without a manual row leaves no row. |
| `CarryLaws.RetranscriptionSucceedsIff` | src/audio_server/worker_runtime.py:328-466 | Carrying raises if and only if there is a manual row and the old or the new transcript does not group. |
| `CarryLaws.MomentIsStart` | src/audio_server/worker_runtime.py:328-377 | A row has a moment if and only if it sits under a sentence of the old transcript, and then that sentence's start. |
| `CarryLaws.RetranscriptionPlaces` | src/audio_server/worker_runtime.py:402-466 | A manual row is under a new sentence afterwards if and only if that is the only sentence with its text that begins within 0.75 seconds of it and no other manual row of that text was said that near the sentence; otherwise it is detached and stale. |
| `Translations.AttachedIffPaired` | src/audio_server/worker_runtime.py:305-325 | A rendering is attached to a sentence if and only if the sentence is the only one with its text near its moment and the rendering the only one of that text near the sentence. |
| `Translations.CarriedIsPairedOrDetached` | src/audio_server/worker_runtime.py:402-466 | Anything else is kept detached and stale. |
| `Translations.CarryKeepsTable` | src/audio_server/worker_runtime.py:402-466 | No sentence receives two renderings, and start and end are both set or both null. |
| `Translations.RetranscriptionIgnoresOrder` | src/audio_server/worker_runtime.py:309-325 | The outcome does not depend on the order the old rows are read in. |
| `Translations.UnchangedTranscriptReattaches` | src/audio_server/worker_runtime.py:328-377 | An unchanged transcript re-attaches every rendering whose source is its sentence and whose moment is unique among sentences and renderings of the same text. |
| `Translations.CarryManualTranslations` | src/audio_server/worker_runtime.py:402-466 | The dictionaries the loops fill decide every rendering as the rule does. |
| `TranslationWrites.WriteTranslations` | src/audio_server/worker_runtime.py:469-524 | The loop rewrites machine rows in place, adds missing ones and leaves manual rows alone. |
| `TranslationWrites.RunKeepsTable` | src/audio_server/worker_runtime.py:469-524 | A machine run keeps the table whole and changes no manual row. |
| `TranslationWrites.RunCoversEverySentence` | src/audio_server/processing/translation.py:80-102 | After a completed run over the stored transcript every sentence has exactly one row, manual, or fresh with the sentence's own text. |
| `TranslationWrites.EditSavesAddressed` | src/audio_server/services/recording_service.py:759-832 | A manual edit saves exactly the rows it addresses, as manual, not stale and with the text now under them. |
| `RenderingLaws.RowTextIs` | src/audio_server/services/recording_service.py:1357-1372 | What a row is checked against is the stripped text of its first to last segment joined in order, if both are still there and it is not blank. |
| `RenderingLaws.EditSavesTexts` | src/audio_server/services/recording_service.py:788-832 | Row by row: an addressed row takes the last text sent for it, records the words its span reads now, and is manual and current; every other row stays. |
| `RenderingLaws.EditAcceptedIff` | src/audio_server/services/recording_service.py:799-821 | An edit is accepted if and only if each text is for a stored row whose span still reads something. |
| `RenderingLaws.RunRows` | src/audio_server/worker_runtime.py:469-524 | Row by row: a run replaces the machine row of each sentence it rendered, adds one for each sentence without a row, and leaves every other row. |
| `TranslationWrites.EditKeepsTable` | src/audio_server/services/recording_service.py:788-832 | A manual edit keeps the table whole. |
| `TranslationWrites.StaleKeepsTable` | src/audio_server/services/recording_service.py:578-590 | A transcript edit keeps every row's anchor. |
| `TranscriptEdit.OverlapFlags` | src/audio_server/services/recording_service.py:1327-1347 | The linear sweep flags a segment if and only if it strictly overlaps some other one. |
| `TranscriptEdit.EditedIsRenumbering` | src/audio_server/services/recording_service.py:547-576 | An accepted edit keeps exactly the same segments and numbers them 0 to n-1 strictly in (start, end, id) order. |
| `TranscriptEdit.EditAcceptedIff` | src/audio_server/services/recording_service.py:547-563 | A transcript edit is accepted if and only if it submits every stored segment once, nothing else, and nothing that ends past the recording. |
| `TranscriptEdit.EditedHoldsUpdates` | src/audio_server/services/recording_service.py:567-576 | Each row holds the speaker, times and text submitted for its segment, and each submission has its row. |
| `TranscriptEdit.EditedFlagsOverlap` | src/audio_server/services/recording_service.py:567-576 | A saved row is flagged if and only if it strictly overlaps another saved row. |
| `TranscriptEdit.Renumber` | src/audio_server/services/recording_service.py:564-576 | The two passes hand out the final numbers, and after every single row update the sequence numbers are distinct. |
| `TranscriptEdit.FirstPassNeverClashes` | src/audio_server/services/recording_service.py:564-566 | Whichever rows of the first pass are updated so far, the sequence numbers are distinct. |
| `TranscriptEdit.SecondPassNeverClashes` | src/audio_server/services/recording_service.py:567-570 | Whichever rows of the second pass are updated so far, the sequence numbers are distinct and the updated rows have theirs. |
| `TranscriptEdit.PassesMeet` | src/audio_server/services/recording_service.py:564-568 | The state the first pass ends in is the one the second begins with. |
| `TranscriptEdit.PassesGoOn` | src/audio_server/services/recording_service.py:564-570 | One more update of either pass, whichever it is, leads from one such state to another. |
| `TranscriptEdit.CompleteHasTargets` | src/audio_server/services/recording_service.py:547-552 | In a complete edit every submitted segment updates a row of its own. |
| `Merge.InTimeArranges` | src/audio_server/processing/merge.py:111-115 | Words are taken by start, then end, ties in their original order, and none is added or lost. |
| `Merge.HeardInTimeArranges` | src/audio_server/processing/merge.py:53-56 | Whisper segments are taken by start, then end, ties in their original order, and none is added or lost. |
| `Sentences.GroupingIsUnique` | src/audio_server/processing/sentences.py:45-84 | A list of spans is the greedy grouping if and only if it tiles the segments, each span having one speaker, a terminator at most at its end, a length within the limit unless single, and a forced cut. |
| `Sentences.GroupSentences` | src/audio_server/processing/sentences.py:45-84 | The loop and its flush produce exactly that grouping, and raise exactly when one of its sentences is malformed. |
| `SentenceLaws.SentencesSay` | src/audio_server/processing/sentences.py:56-70 | The text of each sentence is the stripped join, in order, of the texts of its span; its speaker is that of all of them, and its times and numbers those of the first and the last. |
| `SentenceLaws.SentencesKeepInk` | src/audio_server/processing/sentences.py:45-84 | The sentences one after the other carry every non-space character of the segments, in order. |
| `Sentences.EndsSentenceByPeeling` | src/audio_server/processing/sentences.py:87-91 | Peeling closing quotes decides whether a terminator is followed by quotes and whitespace only. |
| `Sentences.SentencesNameSegments` | src/audio_server/processing/sentences.py:53-70 | In a numbered transcript sentences name real segments and are disjoint. |
| `Sentences.GroupsUnlessInverted` | src/audio_server/processing/sentences.py:36-42 | A valid numbered transcript groups if and only if no greedy span ends before it starts. |
| `Sentences.OrderedGroups` | src/audio_server/processing/sentences.py:45-84 | So one whose segments start in order always groups. |
| `Sentences.BackwardsDoesNotGroup` | src/audio_server/processing/sentences.py:36-42 | A valid transcript out of time order for which grouping raises. |
| `Speakers.ChoiceIsExact` | src/audio_server/processing/merge.py:152-196 | The chosen label is the one of the least turn by (longest overlap, midpoint, start, end, label), else by (distance, start, end, label) within reach, else unknown; and only that label. |
| `VoiceLaws.SpeakerIsExact` | src/audio_server/processing/merge.py:152-196 | The chosen label is that of the one turn with the longest overlap, then holding the midpoint, then earlier by start, end and label; without an overlap of the one nearest turn in reach, earlier first; else unknown. |
| `VoiceLaws.OverlapIsLongest` | src/audio_server/processing/merge.py:255-261 | The overlap of an interval and a turn is the length of the longest part in both, and zero without one. |
| `VoiceLaws.DistanceIsClosest` | src/audio_server/processing/merge.py:268-273 | The distance is that of the closest moments of the interval and the turn. |
| `Speakers.MidpointTierIsSubsumed` | src/audio_server/processing/merge.py:177-182 | Where the midpoint tier decides, the interval has no length and the nearest-turn tier picks the same turn at distance zero. |
| `Speakers.HasSimultaneousSpeech` | src/audio_server/processing/merge.py:199-217 | True if and only if two differently labelled turns share a positive-length part of the interval, or its one moment when it has no length. |
| `Merge.AssignWords` | src/audio_server/processing/merge.py:106-136 | Each word gets its own judgement, and bare punctuation that of the word it trails. |
| `VoiceLaws.WordIsJudged` | src/audio_server/processing/merge.py:106-136 | A word is judged by the exclusive timeline, or the regular one where there is none, and for overlap by the regular one; a word without a letter or digit after another one goes with that. |
| `VoiceLaws.RunReads` | src/audio_server/processing/merge.py:232-247 | The text of a run is its words in order, with one space between two of them exactly where an ASCII letter or digit faces another. |
| `VoiceLaws.SpokenPlaces` | src/audio_server/processing/merge.py:61-80 | The words taken are exactly those that are not blank, each where it stood. |
| `Merge.GroupBySpeaker` | src/audio_server/processing/merge.py:220-229 | The words are split, in order, into the longest runs of one speaker. |
| `Merge.RunsAreUnique` | src/audio_server/processing/merge.py:220-229 | There is only one such split. |
| `Merge.MergeTranscript` | src/audio_server/processing/merge.py:36-104 | Each Whisper segment, in time order, adds one row per run of its spoken words, or its own text under one speaker when it has none. |
| `MergeLaws.RowsAreNumbered` | src/audio_server/processing/merge.py:58-104 | The rows are numbered 0 to n-1. |
| `MergeLaws.AddsValid` | src/audio_server/processing/contracts.py:150-156 | Every row meets the checks of a merged segment: times in order, a named speaker, some text. |
| `MergeLaws.RowsAreValid` | src/audio_server/processing/contracts.py:150-156 | So does every row of a whole merged transcript. |
| `MergeLaws.NeighboursDiffer` | src/audio_server/processing/merge.py:220-229 | Neighbouring rows from one Whisper segment have different speakers. |
| `MergeLaws.RowNeighboursDiffer` | src/audio_server/processing/merge.py:58-104 | The rows of a whole transcript split into one block for each Whisper segment, and neighbours within a block have different speakers. |
| `MergeLaws.WordsLandOnce` | src/audio_server/processing/merge.py:53-80 | Each non-blank word of a segment goes to exactly one row: the rows' runs together are those words in time order. |
| `MergeLaws.AllWordsLandOnce` | src/audio_server/processing/merge.py:58-104 | Over the whole transcript each non-blank word goes to exactly one row: the rows' runs together are the spoken words of all segments in time order. |
| `MergeLaws.MergeKeepsInk` | src/audio_server/processing/merge.py:36-104 | The rows' non-space characters are exactly the ones heard, in time order. |
| `MergeLaws.MergeIgnoresTurnOrder` | src/audio_server/processing/merge.py:41-52 | Permuting the diarization turns leaves the transcript unchanged. |
| `Chunking.ChunkTranscript` | src/audio_server/processing/analysis.py:546-569 | Fails exactly for a limit below 100 or metadata that does not fit; otherwise the lines are cut greedily into consecutive non-empty groups within the limit, each sent without trailing whitespace. |
| `Chunking.PartsRebuildText` | src/audio_server/processing/analysis.py:555-560 | The parts of a segment rebuild its text. |
| `Chunking.LinesPrintSegments` | src/audio_server/processing/analysis.py:553-566 | Each segment is printed as lines of its metadata, a piece of its text and a line end; the pieces make up the text and all lines but the last are exactly at the limit. |
| `Chunking.ClipsKeepBeginnings` | src/audio_server/processing/daily_summary.py:226-226 | A block over the limit is cut to its first characters, any other is taken whole. |
| `Chunking.JoinIsSeparated` | src/audio_server/processing/daily_summary.py:218-239 | A request is its blocks with an empty line between neighbours. |
| `Chunking.ChunksFit` | src/audio_server/processing/analysis.py:546-569 | Every chunk is within the limit, and there is one as soon as there is a segment. |
| `Chunking.ChunksKeepInk` | src/audio_server/processing/analysis.py:546-569 | The chunks carry every non-space character of all the lines, in order. |
| `Chunking.ChunkDigests` | src/audio_server/processing/daily_summary.py:218-239 | Every digest block stands whole, up to the limit, in exactly one request, and each request is within the limit. |
| `Reducing.GroupDrafts` | src/audio_server/processing/analysis.py:600-623 | The loop computes the greedy groups, or pairs when those would all be single. |
| `Reducing.GroupingShrinks` | src/audio_server/processing/analysis.py:600-623 | Grouping keeps all drafts in order, leaves no group empty and makes two or more drafts strictly fewer. |
| `Reducing.GroupsFit` | src/audio_server/processing/analysis.py:608-622 | A group is within the count limit, and within the size limit unless it is single or a forced pair. |
| `Reducing.GroupsEndForced` | src/audio_server/processing/analysis.py:608-622 | If no two neighbouring drafts fit together the groups are pairs; otherwise a group ends only when it has as many drafts as allowed or no room for the next. |
| `Reducing.RepliesAre` | src/audio_server/processing/analysis.py:282-291 | A pass yields the replies of its groups in order, or the error of the first that fails. |
| `Reducing.Reduce` | src/audio_server/processing/analysis.py:282-291 | The unbounded loop ends in fewer passes than there are partial results, whatever the model answers. |
| `Reducing.ReductionEndsInOne` | src/audio_server/processing/analysis.py:287-291 | If every reply arrives, one result is left. |
| `Reducing.ReduceDay` | src/audio_server/processing/daily_summary.py:145-158 | Six passes at most; anything but one draft left is an error. |
| `Reducing.SevenAlwaysConverge` | src/audio_server/processing/daily_summary.py:36-38 | From one to seven partial summaries the six passes always suffice. |
| `Reducing.EightMayNotConverge` | src/audio_server/processing/daily_summary.py:242-265 | Given two sizes of which only small ones pair up, for every number above seven there are partial summaries and replies with which six passes do not suffice. |
| `DayReduction.PaddedFits` | src/audio_server/processing/daily_summary.py:72-99 | The checks accept a draft of every printed size from 500 to 50001 characters. |
| `DayReduction.ConvergesIffAtMostSeven` | src/audio_server/processing/daily_summary.py:145-158 | For every chunk size the settings accept: six passes bring any n valid partial summaries to one under all valid replies if and only if n is at most seven. |
| `Grounding.KeptIsVerbatim` | src/audio_server/processing/analysis.py:660-678 | A kept quotation is a substring of its segment and differs from the model's by outer whitespace and at most one pair of quotation marks. |
| `Grounding.VerbatimIsKept` | src/audio_server/processing/analysis.py:660-678 | A verbatim quotation is kept, wrapped in one pair of marks or not. |
| `Grounding.EmptyIffBlank` | src/audio_server/processing/analysis.py:660-665 | What is kept of a quotation is the empty text if and only if the quotation is blank, and a blank one is always kept. |
| `Grounding.EmptyQuoteIffBlankQuote` | src/audio_server/processing/analysis.py:626-657 | A grounded draft carries an empty quotation if and only if the draft has a blank one for an existing segment. |
| `Grounding.BuildQuotes` | src/audio_server/processing/analysis.py:681-703 | The result holds each quotation once; building it fails if and only if one of them does not meet the result's checks. |
| `Grounding.ResultFailsIff` | src/audio_server/processing/analysis.py:681-725 | On a stored transcript that is exactly when the draft has a blank quotation for an existing segment, or one kept from a segment that ends at time zero. |
| `Grounding.GroundedCanBeSaved` | src/audio_server/services/recording_service.py:1374-1390 | The quotations of a grounded draft are ones a manual save accepts. |
| `Grounding.GroundDraft` | src/audio_server/processing/analysis.py:626-657 | The loop keeps, in order, the quotations that stand in the segment they name. |
| `Grounding.GroundedTwice` | src/audio_server/processing/analysis.py:626-657 | Grounding a grounded draft changes nothing. |
| `DayList.ListDays` | src/audio_server/services/daily_service.py:99-147 | The page holds the newest days with their full counts, although reading stops early, and each day's summary status and whether it is stale. |
| `DayList.PageIs` | src/audio_server/services/daily_service.py:99-147 | Each line shows a day with as many newer days as its place says, the number of all its recordings and of the analysed ones, and its summary as stored; a page is short only where the days run out. |
| `DayList.EnoughRead` | src/audio_server/services/daily_service.py:112-126 | Where reading stops, the page and the counts of its days are those of all the rows. |
| `Limiter.LoginRateLimiter.EnsureAllowed` | src/audio_server/web_auth/service.py:139-150 | Refuses if and only if at least max_attempts failures since the last success fall in (now - window, now], for a key not evicted since; Retry-After is the oldest failure's wait, rounded, and at least one. |
| `Limiter.AllowedFromTrueWait` | src/audio_server/web_auth/service.py:139-143 | Without another failure the key is allowed again exactly once all but max_attempts - 1 of its failures have left the window. |
| `Limiter.RetryAfterBounds` | src/audio_server/web_auth/service.py:144-144 | Retry-After is at most half a second below the oldest failure's wait, and at most half a second above it or one; it is below exactly when the wait is over one second and rounds down. |
| `Limiter.RetryAfterSuffices` | src/audio_server/web_auth/service.py:139-150 | Waiting as told suffices if and only if the time from the oldest failure to the one that has to leave is within what rounding added; with exactly max_attempts failures, if and only if the wait was at most one second or did not round down. |
| `Limiter.TwoFailuresOneAllowed` | src/audio_server/web_auth/service.py:152-160 | With one attempt allowed, failures at 0 and 9 and a window of 10: told to wait 1 at 9, refused at 10 and still at 18. |
| `Limiter.OneFailureRoundedDown` | src/audio_server/web_auth/service.py:144-144 | A wait of 1.4 seconds is told as 1, and the caller who obeys is refused. |
| `Limiter.LoginRateLimiter.RecordFailure` | src/audio_server/web_auth/service.py:152-160 | The failure is added and its key becomes the latest; if that makes one key too many, exactly the one untouched the longest is evicted, and every other key keeps its failures. |
| `Limiter.LoginRateLimiter.RecordSuccess` | src/audio_server/web_auth/service.py:162-164 | The key is forgotten; every other key keeps its entries and its history. |
| `Limiter.LoginRateLimiter.ActiveFailures` | src/audio_server/web_auth/service.py:166-176 | What is left of a key is exactly its failures inside the window. |
| `Limiter.KeptRemembersAll` | src/audio_server/web_auth/service.py:114-120 | For a key not evicted since its last success the limiter remembers the plain failure history. |
| `Limiter.KeyCount` | src/audio_server/web_auth/service.py:158-160 | The bound on the order is a bound on the stored keys. |

## Left out

- SQL row locks, SKIP LOCKED and isolation levels: a transaction is one atomic step, and losing a race on a unique index is a refusal by the check before it.
- Workers.Worker.RunOnce: states one round in which no other transaction commits between the claim and its end; what others do meanwhile is in the runs. A heartbeat thread is a step of its own.
- Clock readings before a lock: a step's time is its commit, while the code may read the clock before it waits for row locks.
- Lease expiry: the lease clock is not a fence, as in the code: an expired lease that nobody recovered yet still heartbeats and completes.
- Columns that no transition reads: provider, model, schema version, error type and message, language, confidence and word probabilities, storage keys, file names, bookmarks, review marks.
- Claims are described by the columns the fence and the log use; the stage a claim carries is not among them.
- A summary's revision list and a day's snapshot are maps from recording to revision, as sorting them and comparing makes them.
- update_transcript as one method: its sweep and its renumbering passes are methods of `TranscriptEdit`, and the rows it leaves are a function.
- merge: language and confidence of a row; which characters count as letters or digits beyond ASCII is a parameter.
- chunk_transcript: the printed form of a segment's metadata line is a parameter, and so is a digest block's.
- _to_result: the fields of an expression or highlight that are copied unchanged, and its tags; _to_data: its copied texts.
- get_neighbours, paging, status reads, idempotent ingestion by hash: plain queries.
- delete_recording's file quarantine and its restoration; only the database part is modelled.
- HTTP, cookies, password hashing, cross-site checks, configuration, logging, migrations, ffmpeg, provider prompts, the search for JSON in replies and the user interface.
- Time and rounding: datetimes are whole microseconds, audio times are exact reals rather than floating point.
