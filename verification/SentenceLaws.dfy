/** What a sentence reads and says, told of the segments it was made of. */
module SentenceLaws {
  import opened Prelude
  import opened Text
  import opened Sentences

  function Texts(segments: seq<Segment>): seq<string> {
    seq(|segments|, i requires 0 <= i < |segments| => segments[i].text)
  }

  function SentenceTexts(sentences: seq<Sentence>): seq<string> {
    seq(|sentences|, k requires 0 <= k < |sentences| => sentences[k].text)
  }

  lemma {:induction false} TextIsJoin(segments: seq<Segment>, lo: nat, hi: nat)
    requires lo <= hi <= |segments|
    ensures TextOf(segments, lo, hi) == Flatten(Texts(segments[lo..hi]))
    ensures Chars(segments, lo, hi) == |Flatten(Texts(segments[lo..hi]))|
  {
    if lo == hi {
      assert Texts(segments[lo..hi]) == [];
    } else {
      TextIsJoin(segments, lo, hi - 1);
      FlattenMore(Texts(segments[lo..hi - 1]), segments[hi - 1].text);
      assert Texts(segments[lo..hi]) == Texts(segments[lo..hi - 1]) + [segments[hi - 1].text];
    }
  }

  /** The sentence is that of this span: its segments' texts joined in order and stripped, in the voice of all of
      them, from the start of the first to the end of the last. */
  ghost predicate Says(segments: seq<Segment>, lo: nat, hi: nat, sentence: Sentence)
    requires lo < hi <= |segments|
  {
    && sentence.text == Strip(Flatten(Texts(segments[lo..hi])))
    && (forall i :: lo <= i < hi ==> segments[i].speaker == sentence.speaker)
    && sentence.startTime == segments[lo].start && sentence.endTime == segments[hi - 1].end
    && sentence.startSequence == segments[lo].sequence && sentence.endSequence == segments[hi - 1].sequence
  }

  /** Every sentence says what the segments of its span say, and the spans are the one greedy grouping. */
  lemma SentencesSay(segments: seq<Segment>, maxChars: int, sentences: seq<Sentence>) returns (spans: seq<Span>)
    requires Grouped(segments, maxChars) == Success(sentences)
    ensures IsGrouping(segments, maxChars, spans, 0) && |spans| == |sentences|
    ensures forall k :: 0 <= k < |spans| ==> Says(segments, spans[k].lo, spans[k].hi, sentences[k])
  {
    hide TextOf, Flatten, Strip, Tiling, SentencesFrom, MustCut;
    spans := Tiling(segments, maxChars, 0);
    TilingIsGrouping(segments, maxChars, 0);
    SentencesFollowTiling(segments, maxChars, 0);
    forall k | 0 <= k < |spans|
      ensures Says(segments, spans[k].lo, spans[k].hi, sentences[k])
    {
      assert sentences[k] == SentenceAt(segments, spans[k]);
      assert GoodSpan(segments, maxChars, spans[k].lo, spans[k].hi);
      TextIsJoin(segments, spans[k].lo, spans[k].hi);
    }
  }

  /** Grouping moves no word: the sentences one after the other say what the segments one after the other say. */
  lemma SentencesKeepInk(segments: seq<Segment>, maxChars: int, sentences: seq<Sentence>)
    requires Grouped(segments, maxChars) == Success(sentences)
    ensures Ink(Flatten(SentenceTexts(sentences))) == Ink(Flatten(Texts(segments)))
  {
    hide Flatten, Strip, Ink, GoodSpan, MustCut, Grouped;
    var spans := SentencesSay(segments, maxChars, sentences);
    if spans == [] {
      assert SentenceTexts(sentences) == [] && Texts(segments) == [];
    } else {
      PrefixKeepsInk(segments, spans, sentences, |spans|);
      assert sentences[..|spans|] == sentences && segments[..|segments|] == segments;
    }
  }

  /** Where the first n spans end. */
  function EndOf(spans: seq<Span>, n: nat): nat
    requires n <= |spans|
  {
    if n == 0 then 0 else spans[n - 1].hi
  }

  lemma {:induction false} PrefixKeepsInk(segments: seq<Segment>, spans: seq<Span>, sentences: seq<Sentence>, n: nat)
    requires Consecutive(segments, spans, 0) && |sentences| == |spans| && n <= |spans|
    requires forall k :: 0 <= k < |spans| ==> Says(segments, spans[k].lo, spans[k].hi, sentences[k])
    ensures EndOf(spans, n) <= |segments|
    ensures Ink(Flatten(SentenceTexts(sentences[..n]))) == Ink(Flatten(Texts(segments[..EndOf(spans, n)])))
  {
    hide Flatten, Strip, Ink;
    if n == 0 {
      assert SentenceTexts(sentences[..0]) == [] && Texts(segments[..0]) == [];
    } else {
      PrefixKeepsInk(segments, spans, sentences, n - 1);
      var lo, hi := EndOf(spans, n - 1), spans[n - 1].hi;
      assert spans[n - 1].lo == lo && Says(segments, lo, hi, sentences[n - 1]);
      OneMoreKeepsInk(segments, sentences, n - 1, lo, hi);
    }
  }

  lemma OneMoreKeepsInk(segments: seq<Segment>, sentences: seq<Sentence>, n: nat, lo: nat, hi: nat)
    requires n < |sentences| && lo < hi <= |segments| && Says(segments, lo, hi, sentences[n])
    requires Ink(Flatten(SentenceTexts(sentences[..n]))) == Ink(Flatten(Texts(segments[..lo])))
    ensures Ink(Flatten(SentenceTexts(sentences[..n + 1]))) == Ink(Flatten(Texts(segments[..hi])))
  {
    hide Flatten, Strip, Ink;
    var before, part := Texts(segments[..lo]), Texts(segments[lo..hi]);
    assert SentenceTexts(sentences[..n + 1]) == SentenceTexts(sentences[..n]) + [sentences[n].text];
    FlattenMore(SentenceTexts(sentences[..n]), sentences[n].text);
    InkConcat(Flatten(SentenceTexts(sentences[..n])), sentences[n].text);
    StripKeepsInk(Flatten(part));
    assert Texts(segments[..hi]) == before + part;
    FlattenConcat(before, part);
    InkConcat(Flatten(before), Flatten(part));
  }
}
