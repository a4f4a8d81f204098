/** What translation runs and manual translation edits leave in each row, said of the transcript's own texts. */
module RenderingLaws {
  import opened Prelude
  import opened Text
  import opened Sentences
  import opened SentenceLaws
  import opened Translations
  import opened TranslationWrites

  // ----- a manual edit -----

  /** The words of segments p to q, joined in order. */
  function WordsBetween(transcript: seq<SegmentRow>, p: nat, q: nat): string
    requires p < |transcript| && q < |transcript|
  {
    if p <= q then Flatten(Texts(Segments(transcript)[p..q + 1])) else ""
  }

  predicate SpanReads(transcript: seq<SegmentRow>, row: TranslationRow, words: string, p: nat, q: nat) {
    && p < |transcript| && q < |transcript|
    && row.startId == Some(transcript[p].id) && row.endId == Some(transcript[q].id)
    && words == Strip(WordsBetween(transcript, p, q)) && words != ""
  }

  /** Both ends of the row's span are still there, and between them the transcript reads these words. */
  ghost predicate ReadsAs(transcript: seq<SegmentRow>, row: TranslationRow, words: string) {
    exists p, q :: SpanReads(transcript, row, words, p, q)
  }

  /** The texts of segments p to q, or to the end, one after the other. */
  function JoinFrom(segments: seq<Segment>, p: nat, q: nat): string
    requires p <= |segments|
  {
    if p <= q then Flatten(Texts(segments[p..if q < |segments| then q + 1 else |segments|])) else ""
  }

  lemma JoinGrows(front: seq<Segment>, last: Segment, p: nat, q: nat)
    requires p <= |front|
    ensures JoinFrom(front + [last], p, q)
         == JoinFrom(front, p, q) + if p <= |front| <= q then last.text else ""
  {
    hide Flatten;
    var all := front + [last];
    if p <= |front| <= q {
      FlattenMore(Texts(front[p..]), last.text);
      assert Texts(all[p..]) == Texts(front[p..]) + [last.text];
      assert all[p..|all|] == all[p..] && front[p..|front|] == front[p..];
    } else if p <= q {
      assert all[p..q + 1] == front[p..q + 1];
    }
  }

  lemma {:induction false} CoveredIsJoin(segments: seq<Segment>, p: nat, q: nat)
    requires forall i :: 0 <= i < |segments| ==> segments[i].sequence == i
    requires p <= |segments|
    ensures CoveredText(segments, p, q) == JoinFrom(segments, p, q)
  {
    hide JoinFrom;
    var n := |segments| - 1;
    if p == |segments| {
      CoveredIsNone(segments, p, q);
      NothingFrom(segments, q);
    } else {
      CoveredIsJoin(segments[..n], p, q);
      JoinGrows(segments[..n], segments[n], p, q);
      assert segments == segments[..n] + [segments[n]];
    }
  }

  lemma NothingFrom(segments: seq<Segment>, q: nat)
    ensures JoinFrom(segments, |segments|, q) == ""
  {
    if |segments| <= q {
      assert Texts(segments[|segments|..|segments|]) == [];
    }
  }

  lemma {:induction false} CoveredIsNone(segments: seq<Segment>, p: nat, q: nat)
    requires forall i :: 0 <= i < |segments| ==> segments[i].sequence < p
    ensures CoveredText(segments, p, q) == ""
  {
    if segments != [] {
      CoveredIsNone(segments[..|segments| - 1], p, q);
    }
  }

  lemma PositionIs(transcript: seq<SegmentRow>, id: SegmentId, p: nat)
    requires WellNumbered(transcript) && p < |transcript|
    ensures PositionOf(transcript, id) == p <==> transcript[p].id == id
  {
  }

  /** The text a row is checked against is what the transcript reads across its span now, if it is all still there. */
  lemma RowTextIs(transcript: seq<SegmentRow>, row: TranslationRow, words: string)
    requires WellNumbered(transcript)
    ensures RowText(transcript, row) == Some(words) <==> ReadsAs(transcript, row, words)
  {
    hide Strip, CoveredText, WordsBetween;
    if row.startId.Some? && row.endId.Some? {
      var p, q := PositionOf(transcript, row.startId.value), PositionOf(transcript, row.endId.value);
      if p < |transcript| && q < |transcript| {
        SpanTextIs(transcript, p, q);
        assert RowText(transcript, row) == Some(words) ==> SpanReads(transcript, row, words, p, q);
      }
    }
    if p, q :| SpanReads(transcript, row, words, p, q) {
      PositionIs(transcript, row.startId.value, p);
      PositionIs(transcript, row.endId.value, q);
      SpanTextIs(transcript, p, q);
    }
  }

  lemma SpanTextIs(transcript: seq<SegmentRow>, p: nat, q: nat)
    requires WellNumbered(transcript) && p < |transcript| && q < |transcript|
    ensures CoveredText(Segments(transcript), p, q) == WordsBetween(transcript, p, q)
  {
    CoveredIsJoin(Segments(transcript), p, q);
  }

  /** u is the last update that names the row's first segment. */
  ghost predicate LastFor(updates: seq<Update>, row: TranslationRow, u: nat) {
    && u < |updates| && row.startId == Some(updates[u].startId)
    && forall v :: u < v < |updates| ==> row.startId != Some(updates[v].startId)
  }

  /** Saved by hand: the person's text, next to the words the transcript reads there now. */
  ghost predicate SavedWith(transcript: seq<SegmentRow>, before: TranslationRow, text: string, after: TranslationRow) {
    && ReadsAs(transcript, before, after.sourceJa)
    && after == before.(text := text, sourceJa := after.sourceJa, source := Manual, stale := false)
  }

  /** An accepted edit gives each row it names the last text sent for it, and leaves every other row alone. */
  lemma {:induction false} EditSavesTexts(transcript: seq<SegmentRow>, rows: seq<TranslationRow>, updates: seq<Update>)
    requires WellNumbered(transcript) && DistinctStarts(rows) && EditRows(transcript, rows, updates).Success?
    ensures var after := EditRows(transcript, rows, updates).value;
            && |after| == |rows|
            && forall i :: 0 <= i < |rows| ==>
                 && after[i].startId == rows[i].startId && after[i].endId == rows[i].endId
                 && (after[i] == rows[i] || exists u: nat :: LastFor(updates, rows[i], u))
                 && forall u: nat :: LastFor(updates, rows[i], u) ==> SavedWith(transcript, rows[i], updates[u].text, after[i])
  {
    hide ReadsAs, EditRow;
    if updates != [] {
      var n := |updates| - 1;
      EditSavesTexts(transcript, rows, updates[..n]);
      var before, after := EditRows(transcript, rows, updates[..n]).value, EditRows(transcript, rows, updates).value;
      SameStarts(rows, before);
      forall i | 0 <= i < |rows|
        ensures after[i].startId == rows[i].startId && after[i].endId == rows[i].endId
        ensures after[i] == rows[i] || exists u: nat :: LastFor(updates, rows[i], u)
        ensures forall u: nat :: LastFor(updates, rows[i], u) ==> SavedWith(transcript, rows[i], updates[u].text, after[i])
      {
        OneEdit(transcript, before, updates[n], i);
        if rows[i].startId == Some(updates[n].startId) {
          assert LastFor(updates, rows[i], n);
          SpanDecides(transcript, rows[i], before[i], after[i].sourceJa);
        } else {
          LastIsEarlier(updates, rows[i]);
          if u: nat :| LastFor(updates[..n], rows[i], u) {
            assert LastFor(updates, rows[i], u);
          }
        }
      }
    }
  }

  lemma LastIsEarlier(updates: seq<Update>, row: TranslationRow)
    requires updates != [] && row.startId != Some(updates[|updates| - 1].startId)
    ensures forall u: nat :: LastFor(updates, row, u) <==> LastFor(updates[..|updates| - 1], row, u)
  {
    var before := updates[..|updates| - 1];
    forall u: nat
      ensures LastFor(updates, row, u) <==> LastFor(before, row, u)
    {
      assert forall v :: 0 <= v < |before| ==> before[v] == updates[v];
    }
  }

  lemma SameStarts(rows: seq<TranslationRow>, after: seq<TranslationRow>)
    requires |after| == |rows| && DistinctStarts(rows) && forall i :: 0 <= i < |rows| ==> after[i].startId == rows[i].startId
    ensures DistinctStarts(after)
  {
  }

  lemma SpanDecides(transcript: seq<SegmentRow>, a: TranslationRow, b: TranslationRow, words: string)
    requires b.startId == a.startId && b.endId == a.endId && ReadsAs(transcript, b, words)
    ensures ReadsAs(transcript, a, words)
  {
    var p, q :| SpanReads(transcript, b, words, p, q);
    assert SpanReads(transcript, a, words, p, q);
  }

  lemma OneEdit(transcript: seq<SegmentRow>, rows: seq<TranslationRow>, update: Update, i: nat)
    requires WellNumbered(transcript) && DistinctStarts(rows) && EditRow(transcript, rows, update).Success? && i < |rows|
    ensures var after := EditRow(transcript, rows, update).value[i];
            if rows[i].startId == Some(update.startId) then SavedWith(transcript, rows[i], update.text, after)
            else after == rows[i]
  {
    hide RowText, ReadsAs;
    var after := EditRow(transcript, rows, update).value[i];
    RowTextIs(transcript, rows[i], after.sourceJa);
  }

  /** The edit is accepted exactly when each text is for a row of the table whose span still reads something. */
  lemma {:induction false} EditAcceptedIff(transcript: seq<SegmentRow>, rows: seq<TranslationRow>, updates: seq<Update>)
    requires WellNumbered(transcript) && DistinctStarts(rows)
    ensures EditRows(transcript, rows, updates).Success? <==>
              forall u :: 0 <= u < |updates| ==> Editable(transcript, rows, updates[u].startId)
  {
    hide EditRow, Editable, ReadsAs;
    if updates != [] {
      var n := |updates| - 1;
      EditAcceptedIff(transcript, rows, updates[..n]);
      assert forall u :: 0 <= u < n ==> updates[..n][u] == updates[u];
      if EditRows(transcript, rows, updates[..n]).Success? {
        EditSavesTexts(transcript, rows, updates[..n]);
        var before := EditRows(transcript, rows, updates[..n]).value;
        SameStarts(rows, before);
        SameEditable(transcript, rows, before, updates[n].startId);
        OneEditAcceptedIff(transcript, before, updates[n]);
      }
    }
  }

  ghost predicate Editable(transcript: seq<SegmentRow>, rows: seq<TranslationRow>, startId: SegmentId) {
    exists i, words :: 0 <= i < |rows| && rows[i].startId == Some(startId) && ReadsAs(transcript, rows[i], words)
  }

  lemma SameEditable(transcript: seq<SegmentRow>, a: seq<TranslationRow>, b: seq<TranslationRow>, startId: SegmentId)
    requires |a| == |b| && forall i :: 0 <= i < |a| ==> b[i].startId == a[i].startId && b[i].endId == a[i].endId
    ensures Editable(transcript, a, startId) <==> Editable(transcript, b, startId)
  {
    hide ReadsAs;
    if i, words :| 0 <= i < |a| && a[i].startId == Some(startId) && ReadsAs(transcript, a[i], words) {
      SpanDecides(transcript, b[i], a[i], words);
    }
    if i, words :| 0 <= i < |b| && b[i].startId == Some(startId) && ReadsAs(transcript, b[i], words) {
      SpanDecides(transcript, a[i], b[i], words);
    }
  }

  lemma OneEditAcceptedIff(transcript: seq<SegmentRow>, rows: seq<TranslationRow>, update: Update)
    requires WellNumbered(transcript) && DistinctStarts(rows)
    ensures EditRow(transcript, rows, update).Success? <==> Editable(transcript, rows, update.startId)
  {
    hide RowText, ReadsAs;
    var at := RowFor(rows, Some(update.startId), |rows|);
    if at < |rows| && RowText(transcript, rows[at]).Some? {
      RowTextIs(transcript, rows[at], RowText(transcript, rows[at]).value);
    }
    if i, words :| 0 <= i < |rows| && rows[i].startId == Some(update.startId) && ReadsAs(transcript, rows[i], words) {
      RowTextIs(transcript, rows[i], words);
      assert at == i;
    }
  }

  // ----- a machine run -----

  /** The machine's row for sentence k. */
  predicate FreshRow(transcript: seq<SegmentRow>, s: Sentence, reply: string, row: TranslationRow) {
    && 0 <= s.startSequence < |transcript| && 0 <= s.endSequence < |transcript|
    && row == TranslationRow(Some(transcript[s.startSequence].id), Some(transcript[s.endSequence].id), s.text, reply, Llm, false)
  }

  predicate SitsAt(transcript: seq<SegmentRow>, s: Sentence, row: TranslationRow) {
    0 <= s.startSequence < |transcript| && row.startId == Some(transcript[s.startSequence].id)
  }

  /** Row by row: a run replaces the machine row of every sentence it rendered, adds one for each sentence that had
      none, and leaves every other row as it was. */
  lemma RunRows(transcript: seq<SegmentRow>, table: seq<TranslationRow>, sentences: seq<Sentence>, replies: seq<string>, i: nat)
    requires WellNumbered(transcript) && Grouped(Segments(transcript), MAX_SENTENCE_CHARS) == Success(sentences)
    requires |replies| == |sentences| && i < |Written(transcript, table, Translate(sentences, replies))|
    ensures |table| <= |Written(transcript, table, Translate(sentences, replies))|
    ensures var row := Written(transcript, table, Translate(sentences, replies))[i];
            if i >= |table| then
              exists k :: 0 <= k < |sentences| && FreshRow(transcript, sentences[k], replies[k], row)
                          && forall j :: 0 <= j < |table| ==> !SitsAt(transcript, sentences[k], table[j])
            else if table[i].source.Manual? then row == table[i]
            else
              && (forall k :: 0 <= k < |sentences| && SitsAt(transcript, sentences[k], table[i]) ==>
                    FreshRow(transcript, sentences[k], replies[k], row))
              && ((forall k :: 0 <= k < |sentences| ==> !SitsAt(transcript, sentences[k], table[i])) ==> row == table[i])
  {
    hide Grouped, Segments, Added, Rewritten, RowFor;
    var renderings := Translate(sentences, replies);
    TranslateIsAligned(transcript, sentences, replies);
    var row := Written(transcript, table, renderings)[i];
    if i >= |table| {
      AddedSound(transcript, table, renderings);
      assert row in Added(transcript, table, renderings);
      var k :| 0 <= k < |renderings| && NewRow(transcript, table, renderings[k]) && row == MachineRow(transcript, renderings[k]);
      assert FreshRow(transcript, sentences[k], replies[k], row);
    } else {
      ManualIsKept(transcript, renderings, table[i]);
      RewrittenIsRowOrMachine(transcript, renderings, table[i]);
      forall k | 0 <= k < |sentences| && SitsAt(transcript, sentences[k], table[i]) && table[i].source.Llm?
        ensures FreshRow(transcript, sentences[k], replies[k], row)
      {
        RewrittenTakes(transcript, renderings, table[i], k);
      }
      if k :| 0 <= k < |renderings| && table[i].startId == IdAt(transcript, renderings[k].startSequence) && Placed(transcript, renderings[k]) {
        assert SitsAt(transcript, sentences[k], table[i]);
      }
    }
  }

  lemma ManualIsKept(transcript: seq<SegmentRow>, renderings: seq<Rendering>, row: TranslationRow)
    ensures row.source.Manual? ==> Rewritten(transcript, renderings, row) == row
  {
  }
}
