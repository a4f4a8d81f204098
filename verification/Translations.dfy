/** Translation rows and how they follow a transcript through every rewriting
    (worker_runtime.py, and update_translations in recording_service.py). */
module Translations {
  import opened Prelude
  import opened Text
  import opened Sentences
  import opened Sorting

  type SegmentId = nat

  /** A stored segment: its id survives edits, its sequence number does not. */
  datatype SegmentRow = SegmentRow(id: SegmentId, segment: Segment, hasOverlap: bool)

  datatype Source = Llm | Manual

  /** One rendering of one sentence, keyed by the first and last segment it covers. */
  datatype TranslationRow = TranslationRow(
    startId: Option<SegmentId>,
    endId: Option<SegmentId>,
    sourceJa: string,
    text: string,
    source: Source,
    stale: bool)

  /** A stored transcript: rows in sequence order, numbered 0.. with distinct ids. */
  ghost predicate WellNumbered(transcript: seq<SegmentRow>) {
    && (forall i :: 0 <= i < |transcript| ==> transcript[i].segment.sequence == i)
    && (forall i, j :: 0 <= i < j < |transcript| ==> transcript[i].id != transcript[j].id)
  }

  function Segments(transcript: seq<SegmentRow>): (r: seq<Segment>)
    ensures |r| == |transcript|
    ensures forall i :: 0 <= i < |r| ==> r[i] == transcript[i].segment
  {
    seq(|transcript|, i requires 0 <= i < |transcript| => transcript[i].segment)
  }

  /** The id stored under a sequence number, if any. */
  function IdAt(transcript: seq<SegmentRow>, sequence: int): Option<SegmentId> {
    if 0 <= sequence < |transcript| then Some(transcript[sequence].id) else None
  }

  /** The position of a segment id, or the length when the id is not in the transcript. */
  function PositionOf(transcript: seq<SegmentRow>, id: SegmentId): (p: nat)
    ensures p <= |transcript|
    ensures p < |transcript| ==> transcript[p].id == id
    ensures forall i :: 0 <= i < p ==> transcript[i].id != id
  {
    if transcript == [] || transcript[0].id == id then 0 else 1 + PositionOf(transcript[1..], id)
  }

  // ----- hand-written renderings across a re-transcription -----

  /** A rendering lifted off the transcript: its sentence, when it was said, its text. */
  datatype Captured = Captured(sourceJa: string, moment: Option<real>, text: string)

  const SAME_UTTERANCE_SECONDS := 0.75

  predicate Close(a: real, b: real) {
    -SAME_UTTERANCE_SECONDS <= a - b <= SAME_UTTERANCE_SECONDS
  }

  /** When the sentence starting at a segment number begins, if one does. */
  function StartTimeOf(sentences: seq<Sentence>, sequence: int): Option<real> {
    if sentences == [] then None
    else if sentences[0].startSequence == sequence then Some(sentences[0].startTime)
    else StartTimeOf(sentences[1..], sequence)
  }

  function CaptureRow(transcript: seq<SegmentRow>, sentences: seq<Sentence>, row: TranslationRow): Captured {
    var moment :=
      if row.startId.None? then None
      else
        var p := PositionOf(transcript, row.startId.value);
        if p == |transcript| then None else StartTimeOf(sentences, transcript[p].segment.sequence);
    Captured(row.sourceJa, moment, row.text)
  }

  function ManualRows(rows: seq<TranslationRow>): seq<TranslationRow> {
    if rows == [] then []
    else if rows[0].source.Manual? then [rows[0]] + ManualRows(rows[1..])
    else ManualRows(rows[1..])
  }

  function CaptureAll(transcript: seq<SegmentRow>, sentences: seq<Sentence>, rows: seq<TranslationRow>)
    : seq<Captured>
  {
    seq(|rows|, i requires 0 <= i < |rows| => CaptureRow(transcript, sentences, rows[i]))
  }

  function Capture(transcript: seq<SegmentRow>, rows: seq<TranslationRow>): Result<seq<Captured>> {
    var manual := ManualRows(rows);
    if manual == [] then Success([])
    else
      match Grouped(Segments(transcript), MAX_SENTENCE_CHARS)
      case Failure(error) => Failure(error)
      case Success(sentences) => Success(CaptureAll(transcript, sentences, manual))
  }

  function WithText(sentences: seq<Sentence>, text: string): seq<Sentence> {
    if sentences == [] then []
    else if sentences[0].text == text then [sentences[0]] + WithText(sentences[1..], text)
    else WithText(sentences[1..], text)
  }

  function Near(sentences: seq<Sentence>, moment: real): seq<Sentence> {
    if sentences == [] then []
    else if Close(sentences[0].startTime, moment) then [sentences[0]] + Near(sentences[1..], moment)
    else Near(sentences[1..], moment)
  }

  function UniqueMatch(sentences: seq<Sentence>, moment: real): Option<Sentence> {
    var within := Near(sentences, moment);
    if |within| == 1 then Some(within[0]) else None
  }

  function WrittenAt(preserved: seq<Captured>, sourceJa: string): seq<real> {
    if preserved == [] then []
    else if preserved[0].sourceJa == sourceJa && preserved[0].moment.Some? then
      [preserved[0].moment.value] + WrittenAt(preserved[1..], sourceJa)
    else WrittenAt(preserved[1..], sourceJa)
  }

  function CountWithin(moments: seq<real>, moment: real): nat {
    if moments == [] then 0
    else (if Close(moments[0], moment) then 1 else 0) + CountWithin(moments[1..], moment)
  }

  /** The sentence a rendering goes back to: the only one with its words at its moment, provided that
      sentence sees no other rendering of the same words. */
  function Place(sentences: seq<Sentence>, preserved: seq<Captured>, p: Captured): Option<Sentence> {
    if p.moment.None? then None
    else
      var found := UniqueMatch(WithText(sentences, p.sourceJa), p.moment.value);
      if found.Some? && CountWithin(WrittenAt(preserved, p.sourceJa), found.value.startTime) == 1
      then found else None
  }

  function Restored(transcript: seq<SegmentRow>, place: Option<Sentence>, p: Captured): TranslationRow {
    var startId := if place.Some? then IdAt(transcript, place.value.startSequence) else None;
    var endId := if place.Some? then IdAt(transcript, place.value.endSequence) else None;
    var attached := startId.Some? && endId.Some?;
    TranslationRow(if attached then startId else None, if attached then endId else None,
                   p.sourceJa, p.text, Manual, !attached)
  }

  function CarryAll(transcript: seq<SegmentRow>, sentences: seq<Sentence>, preserved: seq<Captured>)
    : (r: seq<TranslationRow>)
    ensures |r| == |preserved|
    ensures forall i :: 0 <= i < |r| ==> r[i] == Restored(transcript, Place(sentences, preserved, preserved[i]), preserved[i])
  {
    seq(|preserved|, i requires 0 <= i < |preserved| =>
          Restored(transcript, Place(sentences, preserved, preserved[i]), preserved[i]))
  }

  function Carry(transcript: seq<SegmentRow>, preserved: seq<Captured>): Result<seq<TranslationRow>> {
    if preserved == [] then Success([])
    else
      match Grouped(Segments(transcript), MAX_SENTENCE_CHARS)
      case Failure(error) => Failure(error)
      case Success(sentences) => Success(CarryAll(transcript, sentences, preserved))
  }

  /** The translation table after a transcription commit: machine rows are gone, manual rows carried. */
  function Retranscribed(before: seq<SegmentRow>, rows: seq<TranslationRow>, after: seq<SegmentRow>)
    : Result<seq<TranslationRow>>
  {
    match Capture(before, rows)
    case Failure(error) => Failure(error)
    case Success(preserved) => Carry(after, preserved)
  }

  // ----- what carrying guarantees -----

  /** The sentence has the rendering's words, at the moment they were said. */
  predicate Matches(s: Sentence, p: Captured) {
    p.moment.Some? && s.text == p.sourceJa && Close(s.startTime, p.moment.value)
  }

  /** The rendering is one of these words at this moment. */
  predicate WrittenFor(p: Captured, text: string, moment: real) {
    p.sourceJa == text && p.moment.Some? && Close(p.moment.value, moment)
  }

  /** Sentence k and rendering i single each other out. */
  ghost predicate Paired(sentences: seq<Sentence>, preserved: seq<Captured>, i: nat, k: nat)
    requires i < |preserved| && k < |sentences|
  {
    && Matches(sentences[k], preserved[i])
    && (forall j :: 0 <= j < |sentences| && j != k ==> !Matches(sentences[j], preserved[i]))
    && (forall j :: 0 <= j < |preserved| && j != i ==>
          !WrittenFor(preserved[j], preserved[i].sourceJa, sentences[k].startTime))
  }

  lemma {:induction false} NearAll(sentences: seq<Sentence>, text: string, moment: real)
    ensures Near(WithText(sentences, text), moment) == []
       <==> forall k :: 0 <= k < |sentences| ==> !(sentences[k].text == text && Close(sentences[k].startTime, moment))
  {
    if sentences != [] {
      NearAll(sentences[1..], text, moment);
      var tail := WithText(sentences[1..], text);
      assert ([sentences[0]] + tail)[1..] == tail;
      assert forall k :: 0 < k < |sentences| ==> sentences[k] == sentences[1..][k - 1];
    }
  }

  /** One candidate is left exactly when one sentence has the words at the moment. */
  lemma {:induction false} NearOne(sentences: seq<Sentence>, p: Captured, k: nat)
    requires k < |sentences| && p.moment.Some? && Matches(sentences[k], p)
    ensures Near(WithText(sentences, p.sourceJa), p.moment.value) == [sentences[k]]
       <==> forall j :: 0 <= j < |sentences| && j != k ==> !Matches(sentences[j], p)
    ensures Near(WithText(sentences, p.sourceJa), p.moment.value) != []
    ensures |Near(WithText(sentences, p.sourceJa), p.moment.value)| == 1 ==>
              Near(WithText(sentences, p.sourceJa), p.moment.value) == [sentences[k]]
  {
    var rest := sentences[1..];
    assert forall j :: 0 < j < |sentences| ==> sentences[j] == rest[j - 1];
    NearAll(rest, p.sourceJa, p.moment.value);
    var tail := WithText(rest, p.sourceJa);
    assert ([sentences[0]] + tail)[1..] == tail;
    if k > 0 {
      NearOne(rest, p, k - 1);
      assert forall j :: 0 <= j < |rest| ==> rest[j] == sentences[j + 1];
    }
  }

  lemma NextMoment(preserved: seq<Captured>, text: string, moment: real)
    requires preserved != []
    ensures CountWithin(WrittenAt(preserved, text), moment)
         == (if WrittenFor(preserved[0], text, moment) then 1 else 0)
            + CountWithin(WrittenAt(preserved[1..], text), moment)
  {
    var tail := WrittenAt(preserved[1..], text);
    if preserved[0].moment.Some? {
      assert ([preserved[0].moment.value] + tail)[1..] == tail;
    }
  }

  lemma {:induction false} CountNone(preserved: seq<Captured>, text: string, moment: real)
    ensures CountWithin(WrittenAt(preserved, text), moment) == 0
       <==> forall j :: 0 <= j < |preserved| ==> !WrittenFor(preserved[j], text, moment)
  {
    if preserved != [] {
      CountNone(preserved[1..], text, moment);
      NextMoment(preserved, text, moment);
      assert forall k :: 0 < k < |preserved| ==> preserved[k] == preserved[1..][k - 1];
    }
  }

  lemma {:induction false} CountOne(preserved: seq<Captured>, text: string, moment: real, i: nat)
    requires i < |preserved| && WrittenFor(preserved[i], text, moment)
    ensures CountWithin(WrittenAt(preserved, text), moment) == 1
       <==> forall j :: 0 <= j < |preserved| && j != i ==> !WrittenFor(preserved[j], text, moment)
    ensures CountWithin(WrittenAt(preserved, text), moment) >= 1
  {
    var rest := preserved[1..];
    assert forall j :: 0 < j < |preserved| ==> preserved[j] == rest[j - 1];
    CountNone(rest, text, moment);
    NextMoment(preserved, text, moment);
    if i > 0 {
      CountOne(rest, text, moment, i - 1);
      assert forall j :: 0 <= j < |rest| ==> rest[j] == preserved[j + 1];
    }
  }

  /** A rendering is placed exactly when a sentence and it single each other out. */
  lemma PlacedIffPaired(sentences: seq<Sentence>, preserved: seq<Captured>, i: nat, k: nat)
    requires i < |preserved| && k < |sentences|
    ensures Place(sentences, preserved, preserved[i]) == Some(sentences[k])
            ==> exists m :: 0 <= m < |sentences| && sentences[m] == sentences[k] && Paired(sentences, preserved, i, m)
    ensures Paired(sentences, preserved, i, k) ==> Place(sentences, preserved, preserved[i]) == Some(sentences[k])
  {
    var p := preserved[i];
    if Matches(sentences[k], p) {
      NearOne(sentences, p, k);
      CountOne(preserved, p.sourceJa, sentences[k].startTime, i);
    } else if Place(sentences, preserved, p) == Some(sentences[k]) {
      NearIsMatch(sentences, p);
    }
  }

  lemma {:induction false} NearIsMatch(sentences: seq<Sentence>, p: Captured)
    requires p.moment.Some?
    ensures forall s :: s in Near(WithText(sentences, p.sourceJa), p.moment.value) ==> Matches(s, p) && s in sentences
  {
    if sentences != [] {
      NearIsMatch(sentences[1..], p);
      var tail := WithText(sentences[1..], p.sourceJa);
      assert ([sentences[0]] + tail)[1..] == tail;
    }
  }

  /** Whatever sentence a rendering is placed at, the two are paired. */
  lemma PlaceIsPaired(sentences: seq<Sentence>, preserved: seq<Captured>, i: nat) returns (k: nat)
    requires i < |preserved| && Place(sentences, preserved, preserved[i]).Some?
    ensures k < |sentences| && Place(sentences, preserved, preserved[i]) == Some(sentences[k])
    ensures Paired(sentences, preserved, i, k)
  {
    NearIsMatch(sentences, preserved[i]);
    var s := Place(sentences, preserved, preserved[i]).value;
    assert s in Near(WithText(sentences, preserved[i].sourceJa), preserved[i].moment.value);
    var m :| 0 <= m < |sentences| && sentences[m] == s;
    PlacedIffPaired(sentences, preserved, i, m);
    k :| 0 <= k < |sentences| && sentences[k] == sentences[m] && Paired(sentences, preserved, i, k);
  }

  ghost predicate DistinctStarts(rows: seq<TranslationRow>) {
    forall i, j :: 0 <= i < j < |rows| && rows[i].startId.Some? ==> rows[i].startId != rows[j].startId
  }

  /** Starts and ends are set together, name live segments, and no two rows share a start. */
  ghost predicate TableOk(transcript: seq<SegmentRow>, rows: seq<TranslationRow>) {
    && DistinctStarts(rows)
    && forall i :: 0 <= i < |rows| ==> Anchored(transcript, rows[i])
  }

  ghost predicate Anchored(transcript: seq<SegmentRow>, row: TranslationRow) {
    && (row.startId.Some? <==> row.endId.Some?)
    && (row.startId.Some? ==> IsSegment(transcript, row.startId.value) && IsSegment(transcript, row.endId.value))
  }

  ghost predicate IsSegment(transcript: seq<SegmentRow>, id: SegmentId) {
    exists k :: 0 <= k < |transcript| && transcript[k].id == id
  }

  /** No sentence receives two renderings, and every carried row is whole. */
  lemma CarryKeepsTable(transcript: seq<SegmentRow>, preserved: seq<Captured>)
    requires WellNumbered(transcript) && Carry(transcript, preserved).Success?
    ensures TableOk(transcript, Carry(transcript, preserved).value)
  {
    if preserved != [] {
      var sentences := Grouped(Segments(transcript), MAX_SENTENCE_CHARS).value;
      SentencesNameSegments(Segments(transcript), MAX_SENTENCE_CHARS, sentences);
      var rows := CarryAll(transcript, sentences, preserved);
      forall i | 0 <= i < |rows|
        ensures Anchored(transcript, rows[i])
      {
        if Place(sentences, preserved, preserved[i]).Some? {
          var k := PlaceIsPaired(sentences, preserved, i);
        }
      }
      forall i, j | 0 <= i < j < |rows| && rows[i].startId.Some?
        ensures rows[i].startId != rows[j].startId
      {
        if rows[i].startId == rows[j].startId {
          var k := PlaceIsPaired(sentences, preserved, i);
          var m := PlaceIsPaired(sentences, preserved, j);
          SameStart(transcript, sentences, k, m);
        }
      }
    }
  }

  lemma SameStart(transcript: seq<SegmentRow>, sentences: seq<Sentence>, k: nat, m: nat)
    requires WellNumbered(transcript) && Grouped(Segments(transcript), MAX_SENTENCE_CHARS) == Success(sentences)
    requires k < |sentences| && m < |sentences|
    requires IdAt(transcript, sentences[k].startSequence) == IdAt(transcript, sentences[m].startSequence)
    ensures k == m
  {
    SentencesNameSegments(Segments(transcript), MAX_SENTENCE_CHARS, sentences);
  }

  // ----- conservation -----

  /** The hand-written work of a table: each manual row's sentence and rendering, in row order. */
  function Writings(rows: seq<TranslationRow>): seq<(string, string)> {
    var manual := ManualRows(rows);
    seq(|manual|, i requires 0 <= i < |manual| => (manual[i].sourceJa, manual[i].text))
  }

  lemma {:induction false} AllManual(rows: seq<TranslationRow>)
    requires forall i :: 0 <= i < |rows| ==> rows[i].source.Manual?
    ensures ManualRows(rows) == rows
  {
    if rows != [] {
      AllManual(rows[1..]);
    }
  }

  /** Re-transcription loses, invents and alters no hand-written rendering, whatever the new words are. */
  lemma RetranscriptionConserves(before: seq<SegmentRow>, rows: seq<TranslationRow>, after: seq<SegmentRow>)
    requires Retranscribed(before, rows, after).Success?
    ensures Writings(Retranscribed(before, rows, after).value) == Writings(rows)
    ensures forall r :: r in Retranscribed(before, rows, after).value ==> r.source.Manual?
  {
    var carried := Retranscribed(before, rows, after).value;
    AllManual(carried);
  }

  // ----- exactly which renderings are attached -----

  /** A carried rendering lands on sentence k if and only if the two single each other out. */
  lemma AttachedIffPaired(after: seq<SegmentRow>, sentences: seq<Sentence>, preserved: seq<Captured>, i: nat, k: nat)
    requires WellNumbered(after) && Grouped(Segments(after), MAX_SENTENCE_CHARS) == Success(sentences)
    requires i < |preserved| && k < |sentences|
    ensures 0 <= sentences[k].startSequence <= sentences[k].endSequence < |after|
    ensures Paired(sentences, preserved, i, k) <==>
              CarryAll(after, sentences, preserved)[i] ==
              TranslationRow(Some(after[sentences[k].startSequence].id), Some(after[sentences[k].endSequence].id),
                             preserved[i].sourceJa, preserved[i].text, Manual, false)
  {
    SentencesNameSegments(Segments(after), MAX_SENTENCE_CHARS, sentences);
    PlacedIffPaired(sentences, preserved, i, k);
    if Place(sentences, preserved, preserved[i]).Some? {
      var m := PlaceIsPaired(sentences, preserved, i);
      if IdAt(after, sentences[k].startSequence) == IdAt(after, sentences[m].startSequence) {
        SameStart(after, sentences, k, m);
      }
    }
  }

  /** Nothing but an exact pairing is ever attached, and what is not attached is flagged stale. */
  lemma CarriedIsPairedOrDetached(after: seq<SegmentRow>, sentences: seq<Sentence>, preserved: seq<Captured>, i: nat)
    requires WellNumbered(after) && Grouped(Segments(after), MAX_SENTENCE_CHARS) == Success(sentences)
    requires i < |preserved|
    ensures var row := CarryAll(after, sentences, preserved)[i];
            if exists k :: 0 <= k < |sentences| && Paired(sentences, preserved, i, k) then row.startId.Some? && !row.stale
            else row == TranslationRow(None, None, preserved[i].sourceJa, preserved[i].text, Manual, true)
  {
    if k: nat :| k < |sentences| && Paired(sentences, preserved, i, k) {
      AttachedIffPaired(after, sentences, preserved, i, k);
    } else if Place(sentences, preserved, preserved[i]).Some? {
      var k := PlaceIsPaired(sentences, preserved, i);
    }
  }

  lemma {:induction false} StartTimeFound(sentences: seq<Sentence>, k: nat)
    requires k < |sentences|
    requires forall i, j :: 0 <= i < j < |sentences| ==> sentences[i].startSequence != sentences[j].startSequence
    ensures StartTimeOf(sentences, sentences[k].startSequence) == Some(sentences[k].startTime)
  {
    if k > 0 {
      StartTimeFound(sentences[1..], k - 1);
    }
  }

  /** The moment captured for a row that starts sentence k is when that sentence starts. */
  lemma CapturedMoment(before: seq<SegmentRow>, sentences: seq<Sentence>, row: TranslationRow, k: nat)
    requires WellNumbered(before) && Grouped(Segments(before), MAX_SENTENCE_CHARS) == Success(sentences)
    requires k < |sentences| && row.startId.Some? && row.startId == IdAt(before, sentences[k].startSequence)
    ensures CaptureRow(before, sentences, row) == Captured(row.sourceJa, Some(sentences[k].startTime), row.text)
  {
    SentencesNameSegments(Segments(before), MAX_SENTENCE_CHARS, sentences);
    var p := PositionOf(before, row.startId.value);
    assert before[sentences[k].startSequence].id == row.startId.value;
    assert p == sentences[k].startSequence;
    StartTimeFound(sentences, k);
  }

  /** When a re-transcription changes no words and no times, a rendering that describes the sentence it
      sits under goes back under it, unless the same words were said, or rendered, within the tolerance. */
  lemma UnchangedTranscriptReattaches(
    before: seq<SegmentRow>, rows: seq<TranslationRow>, after: seq<SegmentRow>,
    sentences: seq<Sentence>, i: nat, k: nat)
    requires WellNumbered(before) && WellNumbered(after) && Segments(before) == Segments(after)
    requires Grouped(Segments(before), MAX_SENTENCE_CHARS) == Success(sentences)
    requires i < |ManualRows(rows)| && k < |sentences|
    requires var row := ManualRows(rows)[i];
             row.startId.Some? && row.startId == IdAt(before, sentences[k].startSequence) && row.sourceJa == sentences[k].text
    requires forall j :: 0 <= j < |sentences| && j != k ==>
               !(sentences[j].text == sentences[k].text && Close(sentences[j].startTime, sentences[k].startTime))
    requires forall j :: 0 <= j < |ManualRows(rows)| && j != i ==>
               !WrittenFor(CaptureRow(before, sentences, ManualRows(rows)[j]), sentences[k].text, sentences[k].startTime)
    ensures Retranscribed(before, rows, after).Success?
    ensures |Retranscribed(before, rows, after).value| == |ManualRows(rows)|
    ensures 0 <= sentences[k].startSequence <= sentences[k].endSequence < |after|
    ensures Retranscribed(before, rows, after).value[i] ==
            TranslationRow(Some(after[sentences[k].startSequence].id), Some(after[sentences[k].endSequence].id),
                           sentences[k].text, ManualRows(rows)[i].text, Manual, false)
  {
    hide Grouped;
    var manual := ManualRows(rows);
    var preserved := CaptureAll(before, sentences, manual);
    CapturedMoment(before, sentences, manual[i], k);
    assert forall j :: 0 <= j < |preserved| ==> preserved[j] == CaptureRow(before, sentences, manual[j]);
    assert Paired(sentences, preserved, i, k);
    AttachedIffPaired(after, sentences, preserved, i, k);
  }

  // ----- the order rows are read in does not matter -----

  lemma {:induction false} CountSplit(a: seq<Captured>, b: seq<Captured>, text: string, moment: real)
    ensures CountWithin(WrittenAt(a + b, text), moment)
         == CountWithin(WrittenAt(a, text), moment) + CountWithin(WrittenAt(b, text), moment)
  {
    if a == [] {
      assert a + b == b;
    } else {
      CountSplit(a[1..], b, text, moment);
      assert (a + b)[1..] == a[1..] + b;
      NextMoment(a, text, moment);
      NextMoment(a + b, text, moment);
    }
  }

  lemma {:induction false} CountIgnoresOrder(a: seq<Captured>, b: seq<Captured>, text: string, moment: real)
    requires multiset(a) == multiset(b)
    ensures CountWithin(WrittenAt(a, text), moment) == CountWithin(WrittenAt(b, text), moment)
  {
    if a == [] {
      assert b == [] by {
        assert |multiset(b)| == 0;
      }
    } else {
      var j, without := Extract(a, b);
      CountIgnoresOrder(a[1..], without, text, moment);
      NextMoment(a, text, moment);
      CountSplit(b[..j], b[j..], text, moment);
      CountSplit(b[..j], b[j + 1..], text, moment);
      NextMoment(b[j..], text, moment);
      assert b == b[..j] + b[j..] && b[j..][1..] == b[j + 1..];
    }
  }

  /** Reading the old rows in another order gives the same rows back. */
  lemma CarryIgnoresOrder(transcript: seq<SegmentRow>, a: seq<Captured>, b: seq<Captured>)
    requires multiset(a) == multiset(b)
    requires Carry(transcript, a).Success?
    ensures Carry(transcript, b).Success?
    ensures multiset(Carry(transcript, a).value) == multiset(Carry(transcript, b).value)
  {
    if a == [] || b == [] {
      assert |multiset(a)| == |multiset(b)|;
    } else {
      var sentences := Grouped(Segments(transcript), MAX_SENTENCE_CHARS).value;
      var f := (p: Captured) => Restored(transcript, Place(sentences, a, p), p);
      MapIgnoresOrder(f, a, b);
      assert Map(f, a) == CarryAll(transcript, sentences, a);
      forall i | 0 <= i < |b|
        ensures Place(sentences, a, b[i]) == Place(sentences, b, b[i])
      {
        forall moment
          ensures CountWithin(WrittenAt(a, b[i].sourceJa), moment) == CountWithin(WrittenAt(b, b[i].sourceJa), moment)
        {
          CountIgnoresOrder(a, b, b[i].sourceJa, moment);
        }
      }
      assert Map(f, b) == CarryAll(transcript, sentences, b);
    }
  }

  lemma {:induction false} ManualSplit(a: seq<TranslationRow>, b: seq<TranslationRow>)
    ensures ManualRows(a + b) == ManualRows(a) + ManualRows(b)
  {
    if a == [] {
      assert a + b == b;
    } else {
      ManualSplit(a[1..], b);
      assert (a + b)[1..] == a[1..] + b;
    }
  }

  lemma {:induction false} ManualIgnoresOrder(a: seq<TranslationRow>, b: seq<TranslationRow>)
    requires multiset(a) == multiset(b)
    ensures multiset(ManualRows(a)) == multiset(ManualRows(b))
  {
    if a == [] {
      assert b == [] by {
        assert |multiset(b)| == 0;
      }
    } else {
      var j, without := Extract(a, b);
      ManualIgnoresOrder(a[1..], without);
      ManualSplit(b[..j], b[j..]);
      ManualSplit(b[..j], b[j + 1..]);
      assert b == b[..j] + b[j..] && b[j..][1..] == b[j + 1..];
    }
  }

  /** The table a re-transcription leaves does not depend on the order the old rows were read in. */
  lemma RetranscriptionIgnoresOrder(
    before: seq<SegmentRow>, a: seq<TranslationRow>, b: seq<TranslationRow>, after: seq<SegmentRow>)
    requires multiset(a) == multiset(b)
    requires Retranscribed(before, a, after).Success?
    ensures Retranscribed(before, b, after).Success?
    ensures multiset(Retranscribed(before, a, after).value) == multiset(Retranscribed(before, b, after).value)
  {
    hide Grouped, Carry;
    ManualIgnoresOrder(a, b);
    var m, n := ManualRows(a), ManualRows(b);
    assert |multiset(m)| == |multiset(n)|;
    if m != [] {
      var sentences := Grouped(Segments(before), MAX_SENTENCE_CHARS).value;
      var f := (row: TranslationRow) => CaptureRow(before, sentences, row);
      MapIgnoresOrder(f, m, n);
      assert Map(f, m) == CaptureAll(before, sentences, m);
      assert Map(f, n) == CaptureAll(before, sentences, n);
      CarryIgnoresOrder(after, CaptureAll(before, sentences, m), CaptureAll(before, sentences, n));
    }
  }

  // ----- the persister's dictionaries -----

  /** What a defaultdict(list) holds under a key. */
  function Entry<K, V>(d: map<K, seq<V>>, key: K): seq<V> {
    if key in d then d[key] else []
  }

  function Appended<K(!new), V>(d: map<K, seq<V>>, key: K, v: V): (r: map<K, seq<V>>)
    ensures forall k :: Entry(r, k) == if k == key then Entry(d, k) + [v] else Entry(d, k)
  {
    d[key := Entry(d, key) + [v]]
  }

  lemma {:induction false} WithTextAppend(sentences: seq<Sentence>, s: Sentence, text: string)
    ensures WithText(sentences + [s], text) == if s.text == text then WithText(sentences, text) + [s] else WithText(sentences, text)
  {
    if sentences != [] {
      WithTextAppend(sentences[1..], s, text);
      assert (sentences + [s])[1..] == sentences[1..] + [s];
    }
  }

  lemma {:induction false} WrittenAtAppend(preserved: seq<Captured>, p: Captured, text: string)
    ensures WrittenAt(preserved + [p], text)
         == if p.sourceJa == text && p.moment.Some? then WrittenAt(preserved, text) + [p.moment.value]
            else WrittenAt(preserved, text)
  {
    if preserved != [] {
      WrittenAtAppend(preserved[1..], p, text);
      assert (preserved + [p])[1..] == preserved[1..] + [p];
    }
  }

  method IndexByText(sentences: seq<Sentence>) returns (candidates: map<string, seq<Sentence>>)
    ensures forall text :: Entry(candidates, text) == WithText(sentences, text)
  {
    candidates := map[];
    for i := 0 to |sentences|
      invariant forall text :: Entry(candidates, text) == WithText(sentences[..i], text)
    {
      var s := sentences[i];
      forall text
        ensures WithText(sentences[..i + 1], text)
             == if s.text == text then Entry(candidates, text) + [s] else Entry(candidates, text)
      {
        WithTextAppend(sentences[..i], s, text);
        assert sentences[..i + 1] == sentences[..i] + [s];
      }
      candidates := Appended(candidates, s.text, s);
    }
    assert sentences[..|sentences|] == sentences;
  }

  method IndexMoments(preserved: seq<Captured>) returns (writtenAt: map<string, seq<real>>)
    ensures forall text :: Entry(writtenAt, text) == WrittenAt(preserved, text)
  {
    writtenAt := map[];
    for i := 0 to |preserved|
      invariant forall text :: Entry(writtenAt, text) == WrittenAt(preserved[..i], text)
    {
      var p := preserved[i];
      forall text
        ensures WrittenAt(preserved[..i + 1], text)
             == if p.sourceJa == text && p.moment.Some? then Entry(writtenAt, text) + [p.moment.value]
                else Entry(writtenAt, text)
      {
        WrittenAtAppend(preserved[..i], p, text);
        assert preserved[..i + 1] == preserved[..i] + [p];
      }
      if p.moment.Some? {
        writtenAt := Appended(writtenAt, p.sourceJa, p.moment.value);
      }
    }
    assert preserved[..|preserved|] == preserved;
  }

  /** The persister fills its two dictionaries, then decides each rendering from them alone. */
  method CarryManualTranslations(transcript: seq<SegmentRow>, preserved: seq<Captured>)
    returns (r: Result<seq<TranslationRow>>)
    ensures r.Success? <==> Carry(transcript, preserved).Success?
    ensures r.Success? ==> r == Carry(transcript, preserved)
  {
    hide Grouped;
    if preserved == [] {
      return Success([]);
    }
    var grouped := GroupSentences(Segments(transcript), MAX_SENTENCE_CHARS);
    if grouped.Failure? {
      return Failure("malformed sentence");
    }
    var sentences := grouped.value;
    var candidates := IndexByText(sentences);
    var writtenAt := IndexMoments(preserved);
    var rows: seq<TranslationRow> := [];
    for i := 0 to |preserved|
      invariant rows == CarryAll(transcript, sentences, preserved)[..i]
    {
      var p := preserved[i];
      var place := None;
      if p.moment.Some? {
        place := UniqueMatch(Entry(candidates, p.sourceJa), p.moment.value);
        if place.Some? && CountWithin(Entry(writtenAt, p.sourceJa), place.value.startTime) != 1 {
          place := None;
        }
      }
      assert place == Place(sentences, preserved, p);
      rows := rows + [Restored(transcript, place, p)];
    }
    assert rows == CarryAll(transcript, sentences, preserved);
    return Success(rows);
  }
}