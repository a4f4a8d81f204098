/** What a re-transcription makes of the translation table, said of the stored rows alone. */
module CarryLaws {
  import opened Prelude
  import opened Text
  import opened Sorting
  import opened Sentences
  import opened Translations

  // ----- which rows are carried -----

  /** The manual rows, found by their places in the table. */
  lemma {:induction false} ManualPlaces(rows: seq<TranslationRow>) returns (from: seq<nat>)
    ensures Increasing(from) && (forall j :: 0 <= j < |from| ==> from[j] < |rows|)
    ensures forall i :: 0 <= i < |rows| ==> (rows[i].source.Manual? <==> i in from)
    ensures |ManualRows(rows)| == |from|
    ensures forall j :: 0 <= j < |from| ==> ManualRows(rows)[j] == rows[from[j]]
  {
    hide ManualRows, Increasing;
    if rows == [] {
      from := [];
      NoManualRows(rows);
      NoPlaces();
    } else {
      var rest := ManualPlaces(rows[1..]);
      from := PlacePrepended(rest, |rows| - 1, rows[0].source.Manual?);
      ManualFirst(rows);
      PlacesOfTail(rows, ManualRows(rows[1..]), rest, from, rows[0].source.Manual?);
      forall i | 0 < i < |rows|
        ensures rows[i].source.Manual? <==> i in from
      {
        assert rows[i] == rows[1..][i - 1];
      }
    }
  }

  lemma ManualFirst(rows: seq<TranslationRow>)
    requires rows != []
    ensures ManualRows(rows) == if rows[0].source.Manual? then [rows[0]] + ManualRows(rows[1..]) else ManualRows(rows[1..])
  {
  }

  /** A re-transcription keeps exactly the manual rows, in their order, each with its source sentence and rendering;
      every machine row is gone. */
  lemma RetranscriptionKeepsManual(before: seq<SegmentRow>, rows: seq<TranslationRow>, after: seq<SegmentRow>)
    returns (from: seq<nat>)
    requires Retranscribed(before, rows, after).Success?
    ensures var carried := Retranscribed(before, rows, after).value;
            && Increasing(from) && |carried| == |from|
            && (forall i :: 0 <= i < |rows| ==> (rows[i].source.Manual? <==> i in from))
            && (forall j :: 0 <= j < |from| ==>
                  && from[j] < |rows|
                  && carried[j].sourceJa == rows[from[j]].sourceJa && carried[j].text == rows[from[j]].text
                  && carried[j].source.Manual?)
  {
    hide Place, Grouped;
    from := ManualPlaces(rows);
  }

  /** So a table of machine rows leaves nothing behind. */
  lemma MachineRowsVanish(before: seq<SegmentRow>, rows: seq<TranslationRow>, after: seq<SegmentRow>)
    requires forall i :: 0 <= i < |rows| ==> rows[i].source.Llm?
    ensures Retranscribed(before, rows, after) == Success([])
  {
    hide Place, Grouped, ManualRows;
    NoManualRows(rows);
  }

  lemma {:induction false} NoManualRows(rows: seq<TranslationRow>)
    requires forall i :: 0 <= i < |rows| ==> rows[i].source.Llm?
    ensures ManualRows(rows) == []
  {
    if rows != [] {
      NoManualRows(rows[1..]);
    }
  }

  /** Carrying raises exactly when there is something to carry and either transcript does not group. */
  lemma RetranscriptionSucceedsIff(before: seq<SegmentRow>, rows: seq<TranslationRow>, after: seq<SegmentRow>)
    ensures Retranscribed(before, rows, after).Success? <==>
              ((exists i :: 0 <= i < |rows| && rows[i].source.Manual?) ==>
                 Grouped(Segments(before), 400).Success? && Grouped(Segments(after), 400).Success?)
  {
    hide Place, Grouped;
    var from := ManualPlaces(rows);
    if i :| 0 <= i < |rows| && rows[i].source.Manual? {
      assert i in from;
    } else {
      NoManualRows(rows);
    }
  }

  // ----- where each of them goes -----

  /** The row sits under a sentence of this transcript that begins at t. */
  ghost predicate SaidAt(transcript: seq<SegmentRow>, sentences: seq<Sentence>, row: TranslationRow, t: real) {
    exists p, k :: SaidIn(transcript, sentences, row, t, p, k)
  }

  predicate SaidIn(transcript: seq<SegmentRow>, sentences: seq<Sentence>, row: TranslationRow, t: real, p: nat, k: nat) {
    && p < |transcript| && k < |sentences| && row.startId == Some(transcript[p].id)
    && sentences[k].startSequence == transcript[p].segment.sequence && sentences[k].startTime == t
  }

  /** A captured rendering has a moment exactly when its row sits under a sentence, and then that sentence's start. */
  lemma MomentIsStart(transcript: seq<SegmentRow>, sentences: seq<Sentence>, row: TranslationRow, t: real)
    requires WellNumbered(transcript) && Grouped(Segments(transcript), MAX_SENTENCE_CHARS) == Success(sentences)
    ensures CaptureRow(transcript, sentences, row).moment == Some(t) <==> SaidAt(transcript, sentences, row, t)
  {
    hide Grouped;
    SentencesNameSegments(Segments(transcript), MAX_SENTENCE_CHARS, sentences);
    if p, k :| SaidIn(transcript, sentences, row, t, p, k) {
      CapturedMoment(transcript, sentences, row, k);
    }
    if CaptureRow(transcript, sentences, row).moment == Some(t) {
      var p := PositionOf(transcript, row.startId.value);
      var k := StartFound(sentences, transcript[p].segment.sequence);
      assert SaidIn(transcript, sentences, row, t, p, k);
    }
  }

  lemma {:induction false} StartFound(sentences: seq<Sentence>, sequence: int) returns (k: nat)
    requires StartTimeOf(sentences, sequence).Some?
    ensures k < |sentences| && sentences[k].startSequence == sequence
    ensures StartTimeOf(sentences, sequence) == Some(sentences[k].startTime)
  {
    if sentences[0].startSequence == sequence {
      k := 0;
    } else {
      k := StartFound(sentences[1..], sequence);
      k := k + 1;
    }
  }

  /** Within three quarters of a second of each other. */
  predicate SameUtterance(a: real, b: real) {
    if a < b then b - a <= 0.75 else a - b <= 0.75
  }

  /** Sentence m has the words of a row said at t, about then. */
  predicate Fits(sentences: seq<Sentence>, m: nat, sourceJa: string, t: real)
    requires m < |sentences|
  {
    sentences[m].text == sourceJa && SameUtterance(sentences[m].startTime, t)
  }

  /** Another manual row of these words was said at u, about then. */
  ghost predicate Rival(before: seq<SegmentRow>, previous: seq<Sentence>, row: TranslationRow, sourceJa: string,
                        moment: real, u: real)
  {
    row.source.Manual? && row.sourceJa == sourceJa && SaidAt(before, previous, row, u) && SameUtterance(u, moment)
  }

  /** A manual row said at t goes to sentence m: no other sentence fits it, and no other manual row of the same
      words was said about when sentence m begins. */
  ghost predicate GoesTo(before: seq<SegmentRow>, previous: seq<Sentence>, rows: seq<TranslationRow>,
                         sentences: seq<Sentence>, i: nat, m: nat, t: real)
    requires i < |rows| && m < |sentences|
  {
    && SaidAt(before, previous, rows[i], t)
    && Fits(sentences, m, rows[i].sourceJa, t)
    && (forall n :: 0 <= n < |sentences| && n != m ==> !Fits(sentences, n, rows[i].sourceJa, t))
    && (forall j, u :: 0 <= j < |rows| && j != i ==>
          !Rival(before, previous, rows[j], rows[i].sourceJa, sentences[m].startTime, u))
  }

  /** What was captured of a row says its words, its rendering and when it was said. */
  ghost predicate Describes(before: seq<SegmentRow>, previous: seq<Sentence>, row: TranslationRow, c: Captured) {
    && c.sourceJa == row.sourceJa && c.text == row.text
    && (c.moment.Some? ==> SaidAt(before, previous, row, c.moment.value))
    && forall t :: SaidAt(before, previous, row, t) ==> c.moment == Some(t)
  }

  lemma CaptureDescribes(before: seq<SegmentRow>, previous: seq<Sentence>, row: TranslationRow)
    requires WellNumbered(before) && Grouped(Segments(before), MAX_SENTENCE_CHARS) == Success(previous)
    ensures Describes(before, previous, row, CaptureRow(before, previous, row))
  {
    hide Grouped, SaidAt, CaptureRow;
    CaptureKeepsWords(before, previous, row);
    forall t
      ensures CaptureRow(before, previous, row).moment == Some(t) <==> SaidAt(before, previous, row, t)
    {
      MomentIsStart(before, previous, row, t);
    }
  }

  lemma CaptureKeepsWords(transcript: seq<SegmentRow>, sentences: seq<Sentence>, row: TranslationRow)
    ensures CaptureRow(transcript, sentences, row).sourceJa == row.sourceJa
    ensures CaptureRow(transcript, sentences, row).text == row.text
  {
  }

  /** Which rows were captured, in order. */
  ghost predicate CapturedFrom(before: seq<SegmentRow>, previous: seq<Sentence>, rows: seq<TranslationRow>,
                               from: seq<nat>, preserved: seq<Captured>)
  {
    && Increasing(from) && |preserved| == |from|
    && (forall j :: 0 <= j < |from| ==> from[j] < |rows| && Describes(before, previous, rows[from[j]], preserved[j]))
    && (forall i :: 0 <= i < |rows| ==> (rows[i].source.Manual? <==> i in from))
  }

  lemma PairedGoes(before: seq<SegmentRow>, previous: seq<Sentence>, rows: seq<TranslationRow>, sentences: seq<Sentence>,
                   from: seq<nat>, preserved: seq<Captured>, j: nat, m: nat)
    requires CapturedFrom(before, previous, rows, from, preserved) && j < |from| && m < |sentences|
    requires Paired(sentences, preserved, j, m)
    ensures GoesTo(before, previous, rows, sentences, from[j], m, preserved[j].moment.value)
  {
    hide SaidAt;
    var t := preserved[j].moment.value;
    forall i, u | 0 <= i < |rows| && i != from[j]
      ensures !Rival(before, previous, rows[i], rows[from[j]].sourceJa, sentences[m].startTime, u)
    {
      if i in from {
        var n :| 0 <= n < |from| && from[n] == i;
        assert Describes(before, previous, rows[from[n]], preserved[n]);
        assert !WrittenFor(preserved[n], preserved[j].sourceJa, sentences[m].startTime);
      }
    }
    forall n | 0 <= n < |sentences| && n != m
      ensures !Fits(sentences, n, rows[from[j]].sourceJa, t)
    {
      assert !Matches(sentences[n], preserved[j]);
    }
  }

  lemma GoesPaired(before: seq<SegmentRow>, previous: seq<Sentence>, rows: seq<TranslationRow>, sentences: seq<Sentence>,
                   from: seq<nat>, preserved: seq<Captured>, j: nat, m: nat, t: real)
    requires CapturedFrom(before, previous, rows, from, preserved) && j < |from| && m < |sentences|
    requires GoesTo(before, previous, rows, sentences, from[j], m, t)
    ensures Paired(sentences, preserved, j, m)
  {
    hide SaidAt;
    assert Describes(before, previous, rows[from[j]], preserved[j]);
    forall n | 0 <= n < |preserved| && n != j
      ensures !WrittenFor(preserved[n], preserved[j].sourceJa, sentences[m].startTime)
    {
      assert Describes(before, previous, rows[from[n]], preserved[n]);
      assert from[n] != from[j] && from[n] in from;
      if preserved[n].moment.Some? {
        assert !Rival(before, previous, rows[from[n]], rows[from[j]].sourceJa, sentences[m].startTime,
                      preserved[n].moment.value);
      }
    }
    forall n | 0 <= n < |sentences| && n != m
      ensures !Matches(sentences[n], preserved[j])
    {
      assert !Fits(sentences, n, rows[from[j]].sourceJa, t);
    }
  }

  lemma CapturedRows(before: seq<SegmentRow>, previous: seq<Sentence>, rows: seq<TranslationRow>)
    returns (from: seq<nat>, preserved: seq<Captured>)
    requires WellNumbered(before) && Grouped(Segments(before), MAX_SENTENCE_CHARS) == Success(previous)
    ensures CapturedFrom(before, previous, rows, from, preserved)
    ensures Capture(before, rows) == Success(preserved)
  {
    hide Grouped, CaptureRow, Describes;
    from := ManualPlaces(rows);
    preserved := CaptureAll(before, previous, ManualRows(rows));
    forall j | 0 <= j < |from|
      ensures Describes(before, previous, rows[from[j]], preserved[j])
    {
      CaptureDescribes(before, previous, rows[from[j]]);
    }
  }

  /** After a re-transcription a manual row is under sentence m if and only if it goes there, and then it is whole
      and current; a row that goes nowhere is detached and stale. */
  lemma RetranscriptionPlaces(before: seq<SegmentRow>, rows: seq<TranslationRow>, after: seq<SegmentRow>,
                              previous: seq<Sentence>, sentences: seq<Sentence>, j: nat)
    returns (from: seq<nat>)
    requires WellNumbered(before) && Grouped(Segments(before), MAX_SENTENCE_CHARS) == Success(previous)
    requires WellNumbered(after) && Grouped(Segments(after), MAX_SENTENCE_CHARS) == Success(sentences)
    requires Retranscribed(before, rows, after).Success? && j < |Retranscribed(before, rows, after).value|
    ensures Increasing(from) && |from| == |Retranscribed(before, rows, after).value|
    ensures forall i :: 0 <= i < |rows| ==> (rows[i].source.Manual? <==> i in from)
    ensures from[j] < |rows|
    ensures var row := Retranscribed(before, rows, after).value[j];
            && row.sourceJa == rows[from[j]].sourceJa && row.text == rows[from[j]].text && row.source.Manual?
            && (row.startId.Some? <==> row.endId.Some?) && row.stale == row.startId.None?
            && (forall m :: 0 <= m < |sentences| ==>
                  && 0 <= sentences[m].startSequence <= sentences[m].endSequence < |after|
                  && ((row.startId == Some(after[sentences[m].startSequence].id)
                       && row.endId == Some(after[sentences[m].endSequence].id))
                      <==> exists t :: GoesTo(before, previous, rows, sentences, from[j], m, t)))
            && (row.startId.Some? ==> exists m, t :: 0 <= m < |sentences| && GoesTo(before, previous, rows, sentences, from[j], m, t))
  {
    hide Grouped, Place, Paired, GoesTo, Describes, Capture;
    var preserved;
    from, preserved := CapturedRows(before, previous, rows);
    SentencesNameSegments(Segments(after), MAX_SENTENCE_CHARS, sentences);
    CarriedForm(after, sentences, preserved, j);
    CarriedIsPairedOrDetached(after, sentences, preserved, j);
    DescribedWords(before, previous, rows[from[j]], preserved[j]);
    forall m | 0 <= m < |sentences|
      ensures var row := CarryAll(after, sentences, preserved)[j];
              (row.startId == Some(after[sentences[m].startSequence].id) && row.endId == Some(after[sentences[m].endSequence].id))
              <==> exists t :: GoesTo(before, previous, rows, sentences, from[j], m, t)
    {
      PlacedIffGoes(before, previous, rows, after, sentences, from, preserved, j, m);
    }
    if CarryAll(after, sentences, preserved)[j].startId.Some? {
      var m :| 0 <= m < |sentences| && Paired(sentences, preserved, j, m);
      PairedGoes(before, previous, rows, sentences, from, preserved, j, m);
    }
  }

  lemma DescribedWords(before: seq<SegmentRow>, previous: seq<Sentence>, row: TranslationRow, c: Captured)
    requires Describes(before, previous, row, c)
    ensures c.sourceJa == row.sourceJa && c.text == row.text
  {
  }

  lemma PlacedIffGoes(before: seq<SegmentRow>, previous: seq<Sentence>, rows: seq<TranslationRow>, after: seq<SegmentRow>,
                      sentences: seq<Sentence>, from: seq<nat>, preserved: seq<Captured>, j: nat, m: nat)
    requires CapturedFrom(before, previous, rows, from, preserved) && j < |from| && m < |sentences|
    requires WellNumbered(after) && Grouped(Segments(after), MAX_SENTENCE_CHARS) == Success(sentences)
    ensures 0 <= sentences[m].startSequence <= sentences[m].endSequence < |after|
    ensures var row := CarryAll(after, sentences, preserved)[j];
            (row.startId == Some(after[sentences[m].startSequence].id) && row.endId == Some(after[sentences[m].endSequence].id))
            <==> exists t :: GoesTo(before, previous, rows, sentences, from[j], m, t)
  {
    hide Grouped, Place, Paired, GoesTo, Describes;
    AttachedIffPaired(after, sentences, preserved, j, m);
    CarriedForm(after, sentences, preserved, j);
    if Paired(sentences, preserved, j, m) {
      PairedGoes(before, previous, rows, sentences, from, preserved, j, m);
    }
    if t :| GoesTo(before, previous, rows, sentences, from[j], m, t) {
      GoesPaired(before, previous, rows, sentences, from, preserved, j, m, t);
    }
  }

  lemma CarriedForm(after: seq<SegmentRow>, sentences: seq<Sentence>, preserved: seq<Captured>, j: nat)
    requires j < |preserved|
    ensures var row := CarryAll(after, sentences, preserved)[j];
            && row.sourceJa == preserved[j].sourceJa && row.text == preserved[j].text && row.source.Manual?
            && (row.startId.Some? <==> row.endId.Some?) && row.stale == row.startId.None?
  {
    hide Place;
  }
}
