/** Grouping transcript segments into sentences (processing/sentences.py). */
module Sentences {
  import opened Prelude
  import opened Text

  /** One merged transcript segment; confidence and language play no part in grouping. */
  datatype Segment = Segment(
    sequence: int,
    speaker: string,
    start: real,
    end: real,
    text: string)

  /** What a transcript row is checked for when it is built. */
  predicate ValidSegment(s: Segment) {
    s.sequence >= 0 && 0.0 <= s.start <= s.end && !Blank(s.speaker) && !Blank(s.text)
  }

  datatype Sentence = Sentence(
    startSequence: int,
    endSequence: int,
    startTime: real,
    endTime: real,
    speaker: string,
    text: string)

  const MAX_SENTENCE_CHARS := 400

  predicate IsTerminator(c: char) {
    || c == '\U{3002}' || c == '\U{FF0E}' || c == '.' || c == '!' || c == '\U{FF01}' || c == '?'
    || c == '\U{FF1F}' || c == '\U{2026}'
  }

  predicate IsTrailing(c: char) {
    || c == '\U{300D}' || c == '\U{300F}' || c == '\U{FF09}' || c == ')' || c == '\U{201D}' || c == '\U{2019}'
    || c == '"' || c == '\'' || c == '\U{3000}' || c == ' '
  }

  /** A terminator, followed by nothing but closing quotes and whitespace. */
  predicate EndsSentence(text: string) {
    exists k :: 0 <= k < |text| && IsTerminator(text[k]) && OnlyTrailing(text, k + 1)
  }

  predicate OnlyTrailing(text: string, from: nat) {
    forall m :: from <= m < |text| ==> IsTrailing(text[m]) || IsSpace(text[m])
  }

  /** The loop that peels closing quotes off the end decides exactly that. */
  method EndsSentenceByPeeling(text: string) returns (ends: bool)
    ensures ends == EndsSentence(text)
  {
    var stripped := RStrip(text);
    while stripped != "" && IsTrailing(stripped[|stripped| - 1])
      invariant stripped <= text
      invariant stripped != "" ==> !IsSpace(stripped[|stripped| - 1])
      invariant OnlyTrailing(text, |stripped|)
      decreases |stripped|
    {
      stripped := RStrip(stripped[..|stripped| - 1]);
    }
    ends := stripped != "" && IsTerminator(stripped[|stripped| - 1]);
    if ends {
      assert IsTerminator(text[|stripped| - 1]) && OnlyTrailing(text, |stripped| - 1 + 1);
    }
  }

  // ----- the grouping as cuts between segments -----

  /** Segments lo (included) to hi (excluded). */
  datatype Span = Span(lo: nat, hi: nat)

  function Chars(segments: seq<Segment>, lo: nat, hi: nat): nat
    requires lo <= hi <= |segments|
  {
    if lo == hi then 0 else Chars(segments, lo, hi - 1) + |segments[hi - 1].text|
  }

  /** A sentence begun at lo may not run on past hi. */
  predicate MustCut(segments: seq<Segment>, maxChars: int, lo: nat, hi: nat)
    requires lo < hi <= |segments|
  {
    || hi == |segments|
    || EndsSentence(segments[hi - 1].text)
    || segments[hi].speaker != segments[lo].speaker
    || Chars(segments, lo, hi + 1) > maxChars
  }

  /** The first forced cut at or after hi, for a sentence begun at lo. */
  function FirstCut(segments: seq<Segment>, maxChars: int, lo: nat, hi: nat): (cut: nat)
    requires lo < hi <= |segments|
    ensures hi <= cut <= |segments| && MustCut(segments, maxChars, lo, cut)
    ensures forall h :: hi <= h < cut ==> !MustCut(segments, maxChars, lo, h)
    decreases |segments| - hi
  {
    if MustCut(segments, maxChars, lo, hi) then hi else FirstCut(segments, maxChars, lo, hi + 1)
  }

  function Tiling(segments: seq<Segment>, maxChars: int, lo: nat): seq<Span>
    requires lo <= |segments|
    decreases |segments| - lo
  {
    if lo == |segments| then []
    else
      var hi := FirstCut(segments, maxChars, lo, lo + 1);
      [Span(lo, hi)] + Tiling(segments, maxChars, hi)
  }

  function SentenceAt(segments: seq<Segment>, span: Span): Sentence
    requires span.lo < span.hi <= |segments|
  {
    var first, last := segments[span.lo], segments[span.hi - 1];
    Sentence(first.sequence, last.sequence, first.start, last.end, first.speaker,
             Strip(TextOf(segments, span.lo, span.hi)))
  }

  function TextOf(segments: seq<Segment>, lo: nat, hi: nat): string
    requires lo <= hi <= |segments|
  {
    if lo == hi then "" else TextOf(segments, lo, hi - 1) + segments[hi - 1].text
  }

  /** What building a sentence checks, and raises ValueError for otherwise. */
  predicate ValidSentence(s: Sentence) {
    s.startSequence <= s.endSequence && s.startTime <= s.endTime && s.text != ""
  }

  ghost predicate Consecutive(segments: seq<Segment>, spans: seq<Span>, lo: nat) {
    && (forall k :: 0 <= k < |spans| ==> spans[k].lo < spans[k].hi <= |segments|)
    && (forall k :: 0 <= k < |spans| - 1 ==> spans[k].hi == spans[k + 1].lo)
    && (if spans == [] then lo == |segments| else spans[0].lo == lo && spans[|spans| - 1].hi == |segments|)
  }

  lemma {:induction false} TilingIsConsecutive(segments: seq<Segment>, maxChars: int, lo: nat)
    requires lo <= |segments|
    ensures Consecutive(segments, Tiling(segments, maxChars, lo), lo)
    decreases |segments| - lo
  {
    if lo < |segments| {
      var hi := FirstCut(segments, maxChars, lo, lo + 1);
      TilingIsConsecutive(segments, maxChars, hi);
    }
  }

  /** The rules for one sentence: a single voice, ended only by its last segment, within the limit
      unless one segment alone is already over it. */
  ghost predicate GoodSpan(segments: seq<Segment>, maxChars: int, lo: nat, hi: nat)
    requires lo < hi <= |segments|
  {
    && (forall i :: lo <= i < hi ==> segments[i].speaker == segments[lo].speaker)
    && (forall i :: lo <= i < hi && i != hi - 1 ==> !EndsSentence(segments[i].text))
    && (lo + 1 < hi ==> Chars(segments, lo, hi) <= maxChars)
  }

  /** The rules for a whole grouping: it tiles the segments from lo on, and no sentence stops early. */
  ghost predicate IsGrouping(segments: seq<Segment>, maxChars: int, spans: seq<Span>, lo: nat) {
    && Consecutive(segments, spans, lo)
    && forall k :: 0 <= k < |spans| ==>
         && GoodSpan(segments, maxChars, spans[k].lo, spans[k].hi)
         && MustCut(segments, maxChars, spans[k].lo, spans[k].hi)
  }

  lemma {:induction false} CharsMonotone(segments: seq<Segment>, lo: nat, mid: nat, hi: nat)
    requires lo <= mid <= hi <= |segments|
    ensures Chars(segments, lo, mid) <= Chars(segments, lo, hi)
  {
    if mid < hi {
      CharsMonotone(segments, lo, mid, hi - 1);
    }
  }

  /** A span is good exactly when nothing forces a cut inside it. */
  lemma GoodSpanHasNoCut(segments: seq<Segment>, maxChars: int, lo: nat, hi: nat)
    requires lo < hi <= |segments|
    ensures GoodSpan(segments, maxChars, lo, hi) <==> Open(segments, maxChars, lo, hi)
  {
    if GoodSpan(segments, maxChars, lo, hi) {
      forall h | lo < h < hi
        ensures !MustCut(segments, maxChars, lo, h)
      {
        CharsMonotone(segments, lo, h + 1, hi);
        var i := h - 1;
        assert !EndsSentence(segments[i].text);
      }
    } else if Open(segments, maxChars, lo, hi) {
      if lo + 1 < hi {
        assert !MustCut(segments, maxChars, lo, hi - 1);
      }
      if i :| lo <= i < hi && segments[i].speaker != segments[lo].speaker {
        assert MustCut(segments, maxChars, lo, i);
      } else if i :| lo <= i < hi && i != hi - 1 && EndsSentence(segments[i].text) {
        assert MustCut(segments, maxChars, lo, i + 1);
      }
    }
  }

  lemma {:induction false} TilingIsGrouping(segments: seq<Segment>, maxChars: int, lo: nat)
    requires lo <= |segments|
    ensures IsGrouping(segments, maxChars, Tiling(segments, maxChars, lo), lo)
    decreases |segments| - lo
  {
    TilingIsConsecutive(segments, maxChars, lo);
    if lo < |segments| {
      var hi := FirstCut(segments, maxChars, lo, lo + 1);
      TilingIsGrouping(segments, maxChars, hi);
      GoodSpanHasNoCut(segments, maxChars, lo, hi);
      var rest := Tiling(segments, maxChars, hi);
      var spans := Tiling(segments, maxChars, lo);
      assert forall k :: 0 < k < |spans| ==> spans[k] == rest[k - 1];
    }
  }

  /** Without its first span, a grouping is a grouping of the rest; and its first span is the greedy one. */
  lemma GroupingPeels(segments: seq<Segment>, maxChars: int, spans: seq<Span>, lo: nat)
    requires lo <= |segments| && IsGrouping(segments, maxChars, spans, lo) && spans != []
    ensures lo < |segments| && spans[0] == Span(lo, FirstCut(segments, maxChars, lo, lo + 1))
    ensures IsGrouping(segments, maxChars, spans[1..], spans[0].hi)
  {
    hide GoodSpan, MustCut;
    var hi := spans[0].hi;
    assert MustCut(segments, maxChars, spans[0].lo, spans[0].hi) && GoodSpan(segments, maxChars, spans[0].lo, spans[0].hi);
    GoodSpanHasNoCut(segments, maxChars, lo, hi);
    OpenUntilCut(segments, maxChars, lo, hi);
    var rest := spans[1..];
    assert forall k :: 0 <= k < |rest| ==> rest[k] == spans[k + 1];
  }

  lemma OpenUntilCut(segments: seq<Segment>, maxChars: int, lo: nat, hi: nat)
    requires lo < hi <= |segments| && Open(segments, maxChars, lo, hi) && MustCut(segments, maxChars, lo, hi)
    ensures FirstCut(segments, maxChars, lo, lo + 1) == hi
  {
    hide MustCut;
    var cut := FirstCut(segments, maxChars, lo, lo + 1);
  }

  /** The rules leave no choice: every list of spans that obeys them is the greedy one. */
  lemma {:induction false} GroupingIsUnique(segments: seq<Segment>, maxChars: int, spans: seq<Span>, lo: nat)
    requires lo <= |segments|
    ensures IsGrouping(segments, maxChars, spans, lo) <==> spans == Tiling(segments, maxChars, lo)
    decreases |spans|
  {
    hide GoodSpan, MustCut, FirstCut;
    TilingIsGrouping(segments, maxChars, lo);
    if IsGrouping(segments, maxChars, spans, lo) && spans != [] {
      GroupingPeels(segments, maxChars, spans, lo);
      GroupingIsUnique(segments, maxChars, spans[1..], spans[0].hi);
      assert spans == [spans[0]] + spans[1..];
    }
  }

  // ----- the loop of the program -----

  /** The sentences of the greedy grouping from segment lo on. */
  function SentencesFrom(segments: seq<Segment>, maxChars: int, lo: nat): seq<Sentence>
    requires lo <= |segments|
    decreases |segments| - lo
  {
    if lo == |segments| then []
    else
      var hi := FirstCut(segments, maxChars, lo, lo + 1);
      [SentenceAt(segments, Span(lo, hi))] + SentencesFrom(segments, maxChars, hi)
  }

  lemma {:induction false} SentencesFollowTiling(segments: seq<Segment>, maxChars: int, lo: nat)
    requires lo <= |segments|
    ensures var tiling := Tiling(segments, maxChars, lo);
            var sentences := SentencesFrom(segments, maxChars, lo);
            && Consecutive(segments, tiling, lo)
            && |sentences| == |tiling|
            && forall k :: 0 <= k < |sentences| ==> sentences[k] == SentenceAt(segments, tiling[k])
    decreases |segments| - lo
  {
    TilingIsConsecutive(segments, maxChars, lo);
    if lo < |segments| {
      SentencesFollowTiling(segments, maxChars, FirstCut(segments, maxChars, lo, lo + 1));
    }
  }

  lemma {:induction false} SpansOrdered(segments: seq<Segment>, spans: seq<Span>, lo: nat, j: nat, k: nat)
    requires Consecutive(segments, spans, lo) && j < k < |spans|
    ensures spans[j].hi <= spans[k].lo
  {
    assert spans[k - 1].hi == spans[k].lo;
    if j < k - 1 {
      SpansOrdered(segments, spans, lo, j, k - 1);
    }
  }

  predicate Numbered(segments: seq<Segment>) {
    forall i :: 0 <= i < |segments| ==> segments[i].sequence == i
  }

  /** In a numbered transcript sentences name real segments, and no two start at the same one. */
  lemma SentencesNameSegments(segments: seq<Segment>, maxChars: int, sentences: seq<Sentence>)
    requires Numbered(segments) && Grouped(segments, maxChars) == Success(sentences)
    ensures forall k :: 0 <= k < |sentences| ==>
              && 0 <= sentences[k].startSequence <= sentences[k].endSequence < |segments|
              && sentences[k].startTime == segments[sentences[k].startSequence].start
    ensures forall j, k :: 0 <= j < k < |sentences| ==>
              sentences[j].endSequence < sentences[k].startSequence
  {
    hide TextOf, RStrip, LStrip, Tiling, SentencesFrom;
    var tiling := Tiling(segments, maxChars, 0);
    SentencesFollowTiling(segments, maxChars, 0);
    forall k | 0 <= k < |sentences|
      ensures sentences[k].startSequence == tiling[k].lo && sentences[k].endSequence == tiling[k].hi - 1
      ensures sentences[k].startTime == segments[tiling[k].lo].start
    {
      assert sentences[k] == SentenceAt(segments, tiling[k]);
    }
    forall j, k | 0 <= j < k < |sentences|
      ensures sentences[j].endSequence < sentences[k].startSequence
    {
      SpansOrdered(segments, tiling, 0, j, k);
    }
  }

  predicate AllValid(sentences: seq<Sentence>) {
    forall k :: 0 <= k < |sentences| ==> ValidSentence(sentences[k])
  }

  /** Grouping raises as soon as one of its sentences is malformed. */
  function Grouped(segments: seq<Segment>, maxChars: int): Result<seq<Sentence>> {
    if maxChars < 1 then Failure("max_chars must be positive")
    else
      var sentences := SentencesFrom(segments, maxChars, 0);
      if AllValid(sentences) then Success(sentences) else Failure("malformed sentence")
  }

  // ----- when grouping raises -----

  lemma TextHasInk(segments: seq<Segment>, lo: nat, hi: nat)
    requires lo < hi <= |segments| && !Blank(segments[hi - 1].text)
    ensures Strip(TextOf(segments, lo, hi)) != ""
  {
    var before, last := TextOf(segments, lo, hi - 1), segments[hi - 1].text;
    var i :| 0 <= i < |last| && !IsSpace(last[i]);
    assert (before + last)[|before| + i] == last[i];
    StripKeepsInk(TextOf(segments, lo, hi));
  }

  predicate InTimeOrder(segments: seq<Segment>) {
    forall i, j :: 0 <= i < j < |segments| ==> segments[i].start <= segments[j].start
  }

  ghost predicate AllSegmentsValid(segments: seq<Segment>) {
    forall i :: 0 <= i < |segments| ==> ValidSegment(segments[i])
  }

  /** The last segment of the span ends before the first one starts. */
  predicate Inverted(segments: seq<Segment>, span: Span)
    requires span.lo < span.hi <= |segments|
  {
    segments[span.hi - 1].end < segments[span.lo].start
  }

  lemma SentenceIsValid(segments: seq<Segment>, span: Span)
    requires span.lo < span.hi <= |segments| && Numbered(segments) && AllSegmentsValid(segments)
    ensures ValidSentence(SentenceAt(segments, span)) <==> !Inverted(segments, span)
  {
    hide Strip, Blank, TextOf;
    assert ValidSegment(segments[span.hi - 1]);
    TextHasInk(segments, span.lo, span.hi);
  }

  /** A stored transcript groups if and only if no greedy span runs backwards in time. */
  lemma GroupsUnlessInverted(segments: seq<Segment>, maxChars: int)
    requires Numbered(segments) && AllSegmentsValid(segments) && maxChars >= 1
    ensures Consecutive(segments, Tiling(segments, maxChars, 0), 0)
    ensures Grouped(segments, maxChars).Success? <==>
              forall k :: 0 <= k < |Tiling(segments, maxChars, 0)| ==> !Inverted(segments, Tiling(segments, maxChars, 0)[k])
  {
    hide SentenceAt, Tiling, SentencesFrom, ValidSentence, Inverted, ValidSegment;
    SentencesFollowTiling(segments, maxChars, 0);
    var tiling, sentences := Tiling(segments, maxChars, 0), SentencesFrom(segments, maxChars, 0);
    forall k | 0 <= k < |tiling|
      ensures ValidSentence(sentences[k]) <==> !Inverted(segments, tiling[k])
    {
      SentenceIsValid(segments, tiling[k]);
    }
  }

  /** So one whose segments start in order always does... */
  lemma OrderedGroups(segments: seq<Segment>, maxChars: int)
    requires Numbered(segments) && AllSegmentsValid(segments) && maxChars >= 1 && InTimeOrder(segments)
    ensures Grouped(segments, maxChars).Success?
  {
    hide Grouped, Tiling;
    GroupsUnlessInverted(segments, maxChars);
    var tiling := Tiling(segments, maxChars, 0);
    forall k | 0 <= k < |tiling|
      ensures !Inverted(segments, tiling[k])
    {
      assert ValidSegment(segments[tiling[k].hi - 1]);
    }
  }

  const Backwards: seq<Segment> := [Segment(0, "A", 5.0, 6.0, "a"), Segment(1, "A", 1.0, 2.0, "b")]

  /** ...and one that is not in order may not. */
  lemma BackwardsDoesNotGroup()
    ensures Numbered(Backwards) && AllSegmentsValid(Backwards)
    ensures Grouped(Backwards, MAX_SENTENCE_CHARS).Failure?
  {
    hide Grouped;
    OneCharacter('a');
    OneCharacter('b');
    GroupsUnlessInverted(Backwards, MAX_SENTENCE_CHARS);
    BackwardsIsOneSpan();
  }

  lemma OneCharacter(c: char)
    requires c == 'a' || c == 'b'
    ensures !Blank([c]) && !Blank("A") && !EndsSentence([c])
  {
    assert !IsSpace([c][0]) && !IsSpace("A"[0]);
  }

  lemma BackwardsIsOneSpan()
    ensures Tiling(Backwards, MAX_SENTENCE_CHARS, 0) == [Span(0, 2)]
  {
    OneCharacter('a');
    assert Chars(Backwards, 0, 1) == 1 && Chars(Backwards, 0, 2) == 2;
    assert !MustCut(Backwards, MAX_SENTENCE_CHARS, 0, 1) && MustCut(Backwards, MAX_SENTENCE_CHARS, 0, 2);
    assert FirstCut(Backwards, MAX_SENTENCE_CHARS, 0, 1) == 2;
    assert Tiling(Backwards, MAX_SENTENCE_CHARS, 2) == [];
  }

  method GroupSentences(segments: seq<Segment>, maxChars: int) returns (r: Result<seq<Sentence>>)
    ensures r.Success? <==> Grouped(segments, maxChars).Success?
    ensures r.Success? ==> r == Grouped(segments, maxChars)
  {
    hide TextOf, RStrip, LStrip, Chars, EndsSentence, SentencesFrom, Open, Flushed, Grouped;
    FlushedBegins(segments, maxChars);
    if maxChars < 1 {
      return Failure("max_chars must be positive");
    }
    ghost var lo: nat := 0;
    var sentences: seq<Sentence> := [];
    var pending: seq<Segment> := [];
    for i := 0 to |segments|
      invariant lo <= i && pending == segments[lo..i]
      invariant Flushed(segments, maxChars, sentences, lo)
      invariant Open(segments, maxChars, lo, i)
      invariant lo < i ==> !EndsSentence(segments[i - 1].text)
    {
      var segment := segments[i];
      SliceMeasures(segments, lo, i, i - lo);
      if lo < i {
        Extend(segments, maxChars, lo, i);
      }
      if pending != [] && (segment.speaker != pending[0].speaker
                           || Chars(pending, 0, |pending|) + |segment.text| > maxChars) {
        var flushed := Flush(segments, maxChars, sentences, lo, i, pending);
        if flushed.Failure? {
          return Failure("malformed sentence");
        }
        sentences := sentences + [flushed.value];
        pending := [];
        lo := i;
      }
      SliceGrows(segments, lo, i);
      pending := pending + [segment];
      var ends := EndsSentenceByPeeling(segment.text);
      if ends {
        var flushed := Flush(segments, maxChars, sentences, lo, i + 1, pending);
        if flushed.Failure? {
          return Failure("malformed sentence");
        }
        sentences := sentences + [flushed.value];
        pending := [];
        lo := i + 1;
      }
    }
    if pending != [] {
      var flushed := Flush(segments, maxChars, sentences, lo, |segments|, pending);
      if flushed.Failure? {
        return Failure("malformed sentence");
      }
      sentences := sentences + [flushed.value];
      lo := |segments|;
    }
    FlushedEnds(segments, maxChars, sentences);
    return Success(sentences);
  }

  /** Nothing forces a cut in a sentence begun at lo before hi. */
  ghost predicate Open(segments: seq<Segment>, maxChars: int, lo: nat, hi: nat)
    requires hi <= |segments|
  {
    forall h :: lo < h < hi ==> !MustCut(segments, maxChars, lo, h)
  }

  /** The sentences so far are valid and are the grouping up to segment lo. */
  ghost predicate Flushed(segments: seq<Segment>, maxChars: int, sentences: seq<Sentence>, lo: nat) {
    && lo <= |segments| && AllValid(sentences)
    && sentences + SentencesFrom(segments, maxChars, lo) == SentencesFrom(segments, maxChars, 0)
  }

  lemma {:induction false} SliceMeasures(segments: seq<Segment>, lo: nat, hi: nat, n: nat)
    requires lo + n <= hi <= |segments|
    ensures Chars(segments[lo..hi], 0, n) == Chars(segments, lo, lo + n)
    ensures TextOf(segments[lo..hi], 0, n) == TextOf(segments, lo, lo + n)
  {
    if n > 0 {
      SliceMeasures(segments, lo, hi, n - 1);
    }
  }

  lemma SliceGrows(segments: seq<Segment>, lo: nat, i: nat)
    requires lo <= i < |segments|
    ensures segments[lo..i + 1] == segments[lo..i] + [segments[i]]
  {
  }

  lemma CutHere(segments: seq<Segment>, maxChars: int, lo: nat, hi: nat)
    requires lo < hi <= |segments| && MustCut(segments, maxChars, lo, hi)
    requires Open(segments, maxChars, lo, hi)
    ensures SentencesFrom(segments, maxChars, lo)
         == [SentenceAt(segments, Span(lo, hi))] + SentencesFrom(segments, maxChars, hi)
  {
    var cut := FirstCut(segments, maxChars, lo, lo + 1);
    assert cut == hi;
  }

  lemma FlushedBegins(segments: seq<Segment>, maxChars: int)
    ensures Flushed(segments, maxChars, [], 0)
    ensures maxChars < 1 ==> Grouped(segments, maxChars).Failure?
    ensures forall lo: nat, hi: nat :: hi <= lo + 1 && hi <= |segments| ==> Open(segments, maxChars, lo, hi)
  {
  }

  lemma FlushedEnds(segments: seq<Segment>, maxChars: int, sentences: seq<Sentence>)
    requires maxChars >= 1 && Flushed(segments, maxChars, sentences, |segments|)
    ensures Grouped(segments, maxChars) == Success(sentences)
  {
    assert sentences + [] == sentences;
  }

  /** The next segment either forces a cut before itself or keeps the sentence open. */
  lemma Extend(segments: seq<Segment>, maxChars: int, lo: nat, i: nat)
    requires lo < i < |segments| && Open(segments, maxChars, lo, i) && !EndsSentence(segments[i - 1].text)
    ensures segments[i].speaker != segments[lo].speaker || Chars(segments, lo, i) + |segments[i].text| > maxChars
            ==> MustCut(segments, maxChars, lo, i)
    ensures MustCut(segments, maxChars, lo, i) || Open(segments, maxChars, lo, i + 1)
    ensures MustCut(segments, maxChars, lo, i) ==>
              segments[i].speaker != segments[lo].speaker || Chars(segments, lo, i) + |segments[i].text| > maxChars
  {
  }

  lemma AppendOne(done: seq<Sentence>, next: Sentence, rest: seq<Sentence>)
    requires AllValid(done)
    ensures (done + [next]) + rest == done + ([next] + rest)
    ensures if ValidSentence(next) then AllValid(done + [next]) else !AllValid(done + ([next] + rest))
  {
    assert (done + ([next] + rest))[|done|] == next;
  }

  lemma FlushOne(segments: seq<Segment>, maxChars: int, sentences: seq<Sentence>, lo: nat, hi: nat)
    requires Flushed(segments, maxChars, sentences, lo)
    requires lo < hi <= |segments| && MustCut(segments, maxChars, lo, hi)
    requires Open(segments, maxChars, lo, hi)
    ensures var sentence := SentenceAt(segments, Span(lo, hi));
            if ValidSentence(sentence) then Flushed(segments, maxChars, sentences + [sentence], hi)
            else Grouped(segments, maxChars).Failure?
  {
    CutHere(segments, maxChars, lo, hi);
    AppendOne(sentences, SentenceAt(segments, Span(lo, hi)), SentencesFrom(segments, maxChars, hi));
  }

  /** Builds the sentence of the pending segments, or raises. */
  method Flush(ghost segments: seq<Segment>, ghost maxChars: int, ghost sentences: seq<Sentence>,
               ghost lo: nat, ghost hi: nat, pending: seq<Segment>)
    returns (r: Result<Sentence>)
    requires Flushed(segments, maxChars, sentences, lo)
    requires lo < hi <= |segments| && pending == segments[lo..hi] && MustCut(segments, maxChars, lo, hi)
    requires Open(segments, maxChars, lo, hi)
    ensures r.Success? ==> r.value == SentenceAt(segments, Span(lo, hi))
    ensures r.Success? ==> Flushed(segments, maxChars, sentences + [r.value], hi)
    ensures r.Failure? ==> Grouped(segments, maxChars).Failure?
  {
    hide MustCut, Open, Flushed, Grouped, SentencesFrom;
    FlushOne(segments, maxChars, sentences, lo, hi);
    SliceMeasures(segments, lo, hi, hi - lo);
    var first, last := pending[0], pending[|pending| - 1];
    var sentence := Sentence(first.sequence, last.sequence, first.start, last.end, first.speaker,
                             Strip(TextOf(pending, 0, |pending|)));
    if sentence.endSequence < sentence.startSequence {
      return Failure("sentence end cannot precede its start");
    }
    if sentence.endTime < sentence.startTime {
      return Failure("sentence end time cannot precede its start");
    }
    if sentence.text == "" {
      return Failure("sentence text cannot be empty");
    }
    return Success(sentence);
  }
}
