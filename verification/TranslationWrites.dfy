/** The writers of the translation table other than a re-transcription: a machine run
    (worker_runtime.py), a manual edit and a transcript edit (recording_service.py). */
module TranslationWrites {
  import opened Prelude
  import opened Text
  import opened Sentences
  import opened Translations

  // ----- a machine run -----

  /** One rendering a translation run returns, tied to the segments it came from. */
  datatype Rendering = Rendering(startSequence: int, endSequence: int, sourceJa: string, text: string)

  /** The run asks for one rendering per sentence, so replies cannot be misaligned. */
  function Translate(sentences: seq<Sentence>, replies: seq<string>): (r: seq<Rendering>)
    requires |replies| == |sentences|
    ensures |r| == |sentences|
  {
    seq(|sentences|, k requires 0 <= k < |sentences| =>
          Rendering(sentences[k].startSequence, sentences[k].endSequence, sentences[k].text, replies[k]))
  }

  /** Whether the transcript still has both ends of a rendering; one that does not is dropped. */
  predicate Placed(transcript: seq<SegmentRow>, r: Rendering) {
    IdAt(transcript, r.startSequence).Some? && IdAt(transcript, r.endSequence).Some?
  }

  predicate Covers(transcript: seq<SegmentRow>, r: Rendering, row: TranslationRow) {
    Placed(transcript, r) && row.startId == IdAt(transcript, r.startSequence)
  }

  /** The last row stored under a start, or the table's length. */
  function RowFor(table: seq<TranslationRow>, startId: Option<SegmentId>, n: nat): (i: nat)
    requires n <= |table|
    ensures i < n ==> table[i].startId == startId
    ensures i < n || i == |table|
    ensures i == |table| ==> forall j :: 0 <= j < n ==> table[j].startId != startId
  {
    if n == 0 then |table|
    else if table[n - 1].startId == startId then n - 1
    else RowFor(table, startId, n - 1)
  }

  function MachineRow(transcript: seq<SegmentRow>, r: Rendering): TranslationRow {
    TranslationRow(IdAt(transcript, r.startSequence), IdAt(transcript, r.endSequence), r.sourceJa, r.text, Llm, false)
  }

  /** What a run makes of a stored row: a manual one is untouched, a machine one takes its new rendering. */
  function Rewritten(transcript: seq<SegmentRow>, renderings: seq<Rendering>, row: TranslationRow): TranslationRow {
    if renderings == [] || row.source.Manual? then row
    else
      var last := renderings[|renderings| - 1];
      if Covers(transcript, last, row) then MachineRow(transcript, last)
      else Rewritten(transcript, renderings[..|renderings| - 1], row)
  }

  /** The rows a run adds: one for each placed rendering whose start had no row. */
  function Added(transcript: seq<SegmentRow>, table: seq<TranslationRow>, renderings: seq<Rendering>)
    : seq<TranslationRow>
  {
    if renderings == [] then []
    else
      var last := renderings[|renderings| - 1];
      var before := Added(transcript, table, renderings[..|renderings| - 1]);
      if Placed(transcript, last)
         && RowFor(table, IdAt(transcript, last.startSequence), |table|) == |table|
      then before + [MachineRow(transcript, last)] else before
  }

  function RewriteAll(transcript: seq<SegmentRow>, table: seq<TranslationRow>, renderings: seq<Rendering>)
    : (r: seq<TranslationRow>)
    ensures |r| == |table|
    ensures forall i :: 0 <= i < |r| ==> r[i] == Rewritten(transcript, renderings, table[i])
  {
    seq(|table|, i requires 0 <= i < |table| => Rewritten(transcript, renderings, table[i]))
  }

  function Written(transcript: seq<SegmentRow>, table: seq<TranslationRow>, renderings: seq<Rendering>)
    : seq<TranslationRow>
  {
    RewriteAll(transcript, table, renderings) + Added(transcript, table, renderings)
  }

  /** The persister's loop: rows are rewritten in place and new ones are appended. */
  method WriteTranslations(transcript: seq<SegmentRow>, table: seq<TranslationRow>, renderings: seq<Rendering>)
    returns (rows: seq<TranslationRow>)
    requires DistinctStarts(table)
    ensures rows == Written(transcript, table, renderings)
  {
    hide Covers, Placed;
    rows := table;
    assert renderings[..0] == [];
    for n := 0 to |renderings|
      invariant rows == Written(transcript, table, renderings[..n])
    {
      ghost var before := rows;
      var r := renderings[n];
      var startId, endId := IdAt(transcript, r.startSequence), IdAt(transcript, r.endSequence);
      assert renderings[..n + 1][..n] == renderings[..n];
      WriteStep(transcript, table, renderings[..n + 1]);
      if startId.Some? && endId.Some? {
        var at := RowFor(table, startId, |table|);
        if at < |table| && rows[at].source.Manual? {
        } else if at == |table| {
          rows := rows + [TranslationRow(startId, endId, r.sourceJa, r.text, Llm, false)];
        } else {
          rows := rows[at := rows[at].(endId := endId, sourceJa := r.sourceJa, text := r.text,
                                       source := Llm, stale := false)];
        }
      }
    }
    assert renderings[..|renderings|] == renderings;
  }

  /** One more rendering changes the table exactly as the loop body does. */
  lemma WriteStep(transcript: seq<SegmentRow>, table: seq<TranslationRow>, renderings: seq<Rendering>)
    requires DistinctStarts(table) && renderings != []
    ensures var r := renderings[|renderings| - 1];
            var before := Written(transcript, table, renderings[..|renderings| - 1]);
            var at := RowFor(table, IdAt(transcript, r.startSequence), |table|);
            && |before| >= |table|
            && (at < |table| && IdAt(transcript, r.startSequence).Some? ==>
                  before[at].source == table[at].source && before[at].startId == IdAt(transcript, r.startSequence))
            && Written(transcript, table, renderings) ==
               if !(IdAt(transcript, r.startSequence).Some? && IdAt(transcript, r.endSequence).Some?) then before
               else if at == |table| then before + [MachineRow(transcript, r)]
               else if table[at].source.Manual? then before
               else before[at := MachineRow(transcript, r)]
  {
    var before := renderings[..|renderings| - 1];
    forall i | 0 <= i < |table|
      ensures Rewritten(transcript, before, table[i]).source == table[i].source
      ensures Rewritten(transcript, before, table[i]).startId == table[i].startId
    {
      RewrittenKeepsKey(transcript, before, table[i]);
    }
  }

  lemma {:induction false} RewrittenKeepsKey(transcript: seq<SegmentRow>, renderings: seq<Rendering>, row: TranslationRow)
    ensures Rewritten(transcript, renderings, row).source == row.source
    ensures Rewritten(transcript, renderings, row).startId == row.startId
  {
    if renderings != [] && row.source.Llm? {
      RewrittenKeepsKey(transcript, renderings[..|renderings| - 1], row);
    }
  }

  /** Every rendering is placed, and no two start at the same segment. */
  ghost predicate Aligned(transcript: seq<SegmentRow>, renderings: seq<Rendering>) {
    && (forall k :: 0 <= k < |renderings| ==>
          0 <= renderings[k].startSequence < |transcript| && 0 <= renderings[k].endSequence < |transcript|)
    && (forall j, k :: 0 <= j < k < |renderings| ==>
          renderings[j].startSequence != renderings[k].startSequence)
  }

  lemma {:induction false} RewrittenTakes(
    transcript: seq<SegmentRow>, renderings: seq<Rendering>, row: TranslationRow, k: nat)
    requires WellNumbered(transcript) && Aligned(transcript, renderings) && k < |renderings|
    requires row.source.Llm? && row.startId == IdAt(transcript, renderings[k].startSequence)
    ensures Rewritten(transcript, renderings, row) == MachineRow(transcript, renderings[k])
  {
    var n := |renderings| - 1;
    if k < n {
      assert IdAt(transcript, renderings[n].startSequence) != IdAt(transcript, renderings[k].startSequence);
      RewrittenTakes(transcript, renderings[..n], row, k);
    }
  }

  lemma {:induction false} RewrittenIsRowOrMachine(
    transcript: seq<SegmentRow>, renderings: seq<Rendering>, row: TranslationRow)
    ensures Rewritten(transcript, renderings, row) == row
         || exists k :: 0 <= k < |renderings| && row.startId == IdAt(transcript, renderings[k].startSequence)
                && Placed(transcript, renderings[k])
                && Rewritten(transcript, renderings, row) == MachineRow(transcript, renderings[k])
  {
    if renderings != [] && row.source.Llm? {
      RewrittenIsRowOrMachine(transcript, renderings[..|renderings| - 1], row);
    }
  }

  ghost predicate NewRow(transcript: seq<SegmentRow>, table: seq<TranslationRow>, r: Rendering) {
    Placed(transcript, r) && forall i :: 0 <= i < |table| ==> table[i].startId != IdAt(transcript, r.startSequence)
  }

  ghost predicate AddedFor(
    transcript: seq<SegmentRow>, table: seq<TranslationRow>, renderings: seq<Rendering>, row: TranslationRow)
  {
    exists k :: 0 <= k < |renderings| && NewRow(transcript, table, renderings[k])
                && row == MachineRow(transcript, renderings[k])
  }

  /** Every added row is that of a rendering that had none... */
  lemma {:induction false} AddedSound(transcript: seq<SegmentRow>, table: seq<TranslationRow>, renderings: seq<Rendering>)
    ensures forall row :: row in Added(transcript, table, renderings) ==> AddedFor(transcript, table, renderings, row)
  {
    if renderings != [] {
      var n := |renderings| - 1;
      AddedSound(transcript, table, renderings[..n]);
      forall row | row in Added(transcript, table, renderings)
        ensures AddedFor(transcript, table, renderings, row)
      {
        if row in Added(transcript, table, renderings[..n]) {
          var k :| 0 <= k < n && NewRow(transcript, table, renderings[..n][k])
                   && row == MachineRow(transcript, renderings[..n][k]);
          assert renderings[k] == renderings[..n][k];
        }
      }
    }
  }

  /** ...every such rendering gets its row... */
  lemma {:induction false} AddedComplete(
    transcript: seq<SegmentRow>, table: seq<TranslationRow>, renderings: seq<Rendering>, k: nat)
    requires k < |renderings| && NewRow(transcript, table, renderings[k])
    ensures MachineRow(transcript, renderings[k]) in Added(transcript, table, renderings)
  {
    var n := |renderings| - 1;
    if k < n {
      AddedComplete(transcript, table, renderings[..n], k);
    }
  }

  /** ...and no start is added twice. */
  lemma {:induction false} AddedDistinct(
    transcript: seq<SegmentRow>, table: seq<TranslationRow>, renderings: seq<Rendering>)
    requires WellNumbered(transcript) && Aligned(transcript, renderings)
    ensures DistinctStarts(Added(transcript, table, renderings))
  {
    if renderings != [] {
      var n := |renderings| - 1;
      AddedDistinct(transcript, table, renderings[..n]);
      AddedSound(transcript, table, renderings[..n]);
      var before := Added(transcript, table, renderings[..n]);
      forall i | 0 <= i < |before|
        ensures before[i].startId != IdAt(transcript, renderings[n].startSequence)
      {
        assert before[i] in before;
        var k :| 0 <= k < n && before[i] == MachineRow(transcript, renderings[..n][k]);
        assert renderings[k] == renderings[..n][k];
      }
    }
  }

  lemma TranslateIsAligned(transcript: seq<SegmentRow>, sentences: seq<Sentence>, replies: seq<string>)
    requires WellNumbered(transcript) && Grouped(Segments(transcript), MAX_SENTENCE_CHARS) == Success(sentences)
    requires |replies| == |sentences|
    ensures Aligned(transcript, Translate(sentences, replies))
  {
    SentencesNameSegments(Segments(transcript), MAX_SENTENCE_CHARS, sentences);
  }

  /** A machine run keeps the table whole and touches no manual row. */
  lemma RunKeepsTable(transcript: seq<SegmentRow>, table: seq<TranslationRow>, renderings: seq<Rendering>)
    requires WellNumbered(transcript) && TableOk(transcript, table) && Aligned(transcript, renderings)
    ensures TableOk(transcript, Written(transcript, table, renderings))
    ensures forall i :: 0 <= i < |table| && table[i].source.Manual? ==>
              Written(transcript, table, renderings)[i] == table[i]
  {
    var rows := Written(transcript, table, renderings);
    AddedSound(transcript, table, renderings);
    forall i | 0 <= i < |rows|
      ensures Anchored(transcript, rows[i])
      ensures i < |table| ==> rows[i].startId == table[i].startId
    {
      if i < |table| {
        RewrittenIsRowOrMachine(transcript, renderings, table[i]);
        RewrittenKeepsKey(transcript, renderings, table[i]);
      } else {
        assert rows[i] in Added(transcript, table, renderings);
      }
    }
    RowsDistinct(transcript, table, renderings);
  }

  lemma RowsDistinct(transcript: seq<SegmentRow>, table: seq<TranslationRow>, renderings: seq<Rendering>)
    requires WellNumbered(transcript) && DistinctStarts(table) && Aligned(transcript, renderings)
    ensures DistinctStarts(Written(transcript, table, renderings))
  {
    var rows := Written(transcript, table, renderings);
    var added := Added(transcript, table, renderings);
    AddedDistinct(transcript, table, renderings);
    AddedSound(transcript, table, renderings);
    forall i, j | 0 <= i < j < |rows| && rows[i].startId.Some?
      ensures rows[i].startId != rows[j].startId
    {
      if i < |table| {
        RewrittenKeepsKey(transcript, renderings, table[i]);
        if j < |table| {
          RewrittenKeepsKey(transcript, renderings, table[j]);
        } else {
          assert rows[j] == added[j - |table|] && rows[j] in added;
          assert AddedFor(transcript, table, renderings, rows[j]);
        }
      } else {
        assert rows[i] == added[i - |table|] && rows[j] == added[j - |table|];
      }
    }
  }

  /** The row a run leaves for sentence k. */
  ghost predicate FreshOrManual(
    transcript: seq<SegmentRow>, table: seq<TranslationRow>, s: Sentence, reply: string, row: TranslationRow)
    requires 0 <= s.startSequence < |transcript| && 0 <= s.endSequence < |transcript|
  {
    || (row.source.Manual? && row in table && row.startId == Some(transcript[s.startSequence].id))
    || row == TranslationRow(Some(transcript[s.startSequence].id), Some(transcript[s.endSequence].id),
                             s.text, reply, Llm, false)
  }

  /** After a completed run every sentence of the transcript it read has its row, and only one: either
      the administrator's own, or a fresh machine row that records the sentence's words. */
  lemma RunCoversEverySentence(
    transcript: seq<SegmentRow>, table: seq<TranslationRow>, sentences: seq<Sentence>, replies: seq<string>, k: nat)
    returns (i: nat)
    requires WellNumbered(transcript) && TableOk(transcript, table)
    requires Grouped(Segments(transcript), MAX_SENTENCE_CHARS) == Success(sentences)
    requires |replies| == |sentences| && k < |sentences|
    ensures 0 <= sentences[k].startSequence <= sentences[k].endSequence < |transcript|
    ensures var rows := Written(transcript, table, Translate(sentences, replies));
            && i < |rows| && FreshOrManual(transcript, table, sentences[k], replies[k], rows[i])
            && forall j :: 0 <= j < |rows| && j != i ==> rows[j].startId != rows[i].startId
  {
    hide Grouped, Segments;
    SentencesNameSegments(Segments(transcript), MAX_SENTENCE_CHARS, sentences);
    var renderings := Translate(sentences, replies);
    TranslateIsAligned(transcript, sentences, replies);
    RowsDistinct(transcript, table, renderings);
    i := RunLeavesRow(transcript, table, renderings, k);
  }

  lemma RunLeavesRow(
    transcript: seq<SegmentRow>, table: seq<TranslationRow>, renderings: seq<Rendering>, k: nat)
    returns (i: nat)
    requires WellNumbered(transcript) && Aligned(transcript, renderings) && k < |renderings|
    ensures var rows := Written(transcript, table, renderings);
            && i < |rows| && rows[i].startId == IdAt(transcript, renderings[k].startSequence)
            && (rows[i] == MachineRow(transcript, renderings[k]) || (rows[i].source.Manual? && rows[i] in table))
  {
    var start := IdAt(transcript, renderings[k].startSequence);
    i := RowFor(table, start, |table|);
    if i < |table| {
      if table[i].source.Llm? {
        RewrittenTakes(transcript, renderings, table[i], k);
      }
    } else {
      AddedComplete(transcript, table, renderings, k);
      var added := Added(transcript, table, renderings);
      var j :| 0 <= j < |added| && added[j] == MachineRow(transcript, renderings[k]);
      i := |table| + j;
    }
  }

  // ----- a manual edit -----

  datatype Update = Update(startId: SegmentId, text: string)

  /** The transcript as it reads now across a span, or nothing when the span is gone. */
  function SpanText(transcript: seq<SegmentRow>, start: Option<int>, end: Option<int>): Option<string> {
    if start.None? || end.None? then None
    else
      var text := Strip(CoveredText(Segments(transcript), start.value, end.value));
      if text == "" then None else Some(text)
  }

  function CoveredText(segments: seq<Segment>, start: int, end: int): string {
    if segments == [] then ""
    else
      var n := |segments| - 1;
      CoveredText(segments[..n], start, end)
      + (if start <= segments[n].sequence <= end then segments[n].text else "")
  }

  function SequenceOf(transcript: seq<SegmentRow>, id: Option<SegmentId>): Option<int> {
    if id.None? then None
    else
      var p := PositionOf(transcript, id.value);
      if p == |transcript| then None else Some(transcript[p].segment.sequence)
  }

  function RowText(transcript: seq<SegmentRow>, row: TranslationRow): Option<string> {
    SpanText(transcript, SequenceOf(transcript, row.startId), SequenceOf(transcript, row.endId))
  }

  function EditRow(transcript: seq<SegmentRow>, rows: seq<TranslationRow>, update: Update)
    : (r: Result<seq<TranslationRow>>)
    ensures r.Success? ==> |r.value| == |rows|
  {
    var at := RowFor(rows, Some(update.startId), |rows|);
    if at == |rows| then Failure("translation_not_found")
    else
      match RowText(transcript, rows[at])
      case None => Failure("translation_span_missing")
      case Some(words) =>
        Success(rows[at := rows[at].(text := update.text, sourceJa := words, source := Manual, stale := false)])
  }

  /** One refused update refuses them all: the transaction is rolled back. */
  function EditRows(transcript: seq<SegmentRow>, rows: seq<TranslationRow>, updates: seq<Update>)
    : (r: Result<seq<TranslationRow>>)
    ensures r.Success? ==> |r.value| == |rows|
  {
    if updates == [] then Success(rows)
    else
      match EditRows(transcript, rows, updates[..|updates| - 1])
      case Failure(error) => Failure(error)
      case Success(edited) => EditRow(transcript, edited, updates[|updates| - 1])
  }

  /** A row either is as it was, or is manual, current, and says exactly what its span reads now. */
  ghost predicate Saved(transcript: seq<SegmentRow>, before: TranslationRow, after: TranslationRow) {
    && after.startId == before.startId && after.endId == before.endId
    && after.source.Manual? && !after.stale && RowText(transcript, before) == Some(after.sourceJa)
  }

  lemma EditRowEffect(transcript: seq<SegmentRow>, rows: seq<TranslationRow>, update: Update)
    requires DistinctStarts(rows) && EditRow(transcript, rows, update).Success?
    ensures forall i :: 0 <= i < |rows| ==>
              var edited := EditRow(transcript, rows, update).value[i];
              if rows[i].startId == Some(update.startId)
              then Saved(transcript, rows[i], edited) && edited.text == update.text
              else edited == rows[i]
  {
  }

  predicate Addressed(updates: seq<Update>, row: TranslationRow) {
    exists u :: 0 <= u < |updates| && row.startId == Some(updates[u].startId)
  }

  /** A manual edit saves exactly the rows it addresses and leaves the others alone. */
  lemma {:induction false} EditSavesAddressed(
    transcript: seq<SegmentRow>, rows: seq<TranslationRow>, updates: seq<Update>)
    requires DistinctStarts(rows) && EditRows(transcript, rows, updates).Success?
    ensures DistinctStarts(EditRows(transcript, rows, updates).value)
    ensures forall i :: 0 <= i < |rows| ==>
              if Addressed(updates, rows[i]) then Saved(transcript, rows[i], EditRows(transcript, rows, updates).value[i])
              else EditRows(transcript, rows, updates).value[i] == rows[i]
  {
    hide RowText, EditRow;
    if updates != [] {
      var n := |updates| - 1;
      EditSavesAddressed(transcript, rows, updates[..n]);
      var before := EditRows(transcript, rows, updates[..n]).value;
      EditRowEffect(transcript, before, updates[n]);
      var after := EditRows(transcript, rows, updates).value;
      forall i | 0 <= i < |rows|
        ensures if Addressed(updates, rows[i]) then Saved(transcript, rows[i], after[i]) else after[i] == rows[i]
      {
        AddressedStep(updates, rows[i]);
        if before[i] != rows[i] {
          SavedAgain(transcript, rows[i], before[i], after[i]);
        }
      }
    }
  }

  lemma AddressedStep(updates: seq<Update>, row: TranslationRow)
    requires updates != []
    ensures Addressed(updates, row)
       <==> Addressed(updates[..|updates| - 1], row) || row.startId == Some(updates[|updates| - 1].startId)
  {
    var before := updates[..|updates| - 1];
    if Addressed(before, row) {
      var u :| 0 <= u < |before| && row.startId == Some(before[u].startId);
      assert updates[u] == before[u];
    }
    if Addressed(updates, row) && row.startId != Some(updates[|updates| - 1].startId) {
      var u :| 0 <= u < |updates| && row.startId == Some(updates[u].startId);
      assert updates[u] == before[u];
    }
  }

  lemma SavedAgain(transcript: seq<SegmentRow>, first: TranslationRow, middle: TranslationRow, last: TranslationRow)
    requires Saved(transcript, first, middle) && (last == middle || Saved(transcript, middle, last))
    ensures Saved(transcript, first, last)
  {
  }

  lemma EditKeepsTable(transcript: seq<SegmentRow>, rows: seq<TranslationRow>, updates: seq<Update>)
    requires TableOk(transcript, rows) && EditRows(transcript, rows, updates).Success?
    ensures TableOk(transcript, EditRows(transcript, rows, updates).value)
  {
    EditSavesAddressed(transcript, rows, updates);
    var after := EditRows(transcript, rows, updates).value;
    forall i | 0 <= i < |rows|
      ensures after[i].startId == rows[i].startId && after[i].endId == rows[i].endId
    {
      assert Addressed(updates, rows[i]) || !Addressed(updates, rows[i]);
    }
  }

  // ----- a transcript edit -----

  function AllStale(rows: seq<TranslationRow>): (r: seq<TranslationRow>)
    ensures |r| == |rows|
    ensures forall i :: 0 <= i < |rows| ==> r[i] == rows[i].(stale := true)
  {
    seq(|rows|, i requires 0 <= i < |rows| => rows[i].(stale := true))
  }

  /** A transcript edit reorders and rewords segments but keeps their ids, so no row loses its anchor. */
  lemma StaleKeepsTable(before: seq<SegmentRow>, after: seq<SegmentRow>, rows: seq<TranslationRow>)
    requires TableOk(before, rows)
    requires forall k :: 0 <= k < |before| ==> IsSegment(after, before[k].id)
    ensures TableOk(after, AllStale(rows))
  {
  }
}
