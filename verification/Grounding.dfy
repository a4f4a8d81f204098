/** Keeping only quotations that stand, character for character, in the transcript (analysis.py). */
module Grounding {
  import opened Prelude
  import opened Text
  import opened Sentences

  predicate StandsAt(needle: string, text: string, i: nat) {
    i + |needle| <= |text| && text[i..i + |needle|] == needle
  }

  predicate Occurs(needle: string, text: string) {
    exists i :: 0 <= i <= |text| && StandsAt(needle, text, i)
  }

  predicate IsPair(open: char, close: char) {
    || (open == '\U{300C}' && close == '\U{300D}') || (open == '\U{300E}' && close == '\U{300F}')
    || (open == '"' && close == '"') || (open == '\U{201C}' && close == '\U{201D}')
    || (open == '\U{2018}' && close == '\U{2019}') || (open == '\'' && close == '\'')
  }

  /** What stands between one matching pair of quotation marks; the pairs are told apart by their first mark. */
  function Unwrapped(candidate: string): string {
    if |candidate| >= 2 && IsPair(candidate[0], candidate[|candidate| - 1])
    then Strip(candidate[1..|candidate| - 1]) else ""
  }

  function ExactGroundedQuote(quote: string, transcript: Option<string>): Option<string> {
    if transcript.None? then None
    else
      var candidate := Strip(quote);
      if Occurs(candidate, transcript.value) then Some(candidate)
      else
        var unwrapped := Unwrapped(candidate);
        if unwrapped != "" && Occurs(unwrapped, transcript.value) then Some(unwrapped) else None
  }

  // ----- stripping twice -----

  predicate Trim(s: string) {
    s == "" || (!IsSpace(s[0]) && !IsSpace(s[|s| - 1]))
  }

  lemma StripTrims(s: string)
    ensures Trim(Strip(s))
  {
    var r := RStrip(s);
    var l := LStrip(r);
    if l != "" {
      assert l[|l| - 1] == r[|r| - 1];
    }
  }

  lemma TrimmedIsStripped(s: string)
    requires Trim(s)
    ensures Strip(s) == s
  {
    if s != "" {
      assert TrimmedEnd(s, |s|) == |s|;
      assert RStrip(s) == s;
    }
  }

  // ----- what a kept quotation is -----

  /** A kept quotation is a piece of the transcript, and differs from what the model wrote by whitespace at its
      ends and at most one pair of quotation marks. */
  lemma KeptIsVerbatim(quote: string, transcript: string)
    requires ExactGroundedQuote(quote, Some(transcript)).Some?
    ensures var kept := ExactGroundedQuote(quote, Some(transcript)).value;
            && Occurs(kept, transcript) && Trim(kept)
            && (Ink(quote) == Ink(kept)
                || exists open, close :: IsPair(open, close) && Ink(quote) == [open] + Ink(kept) + [close])
  {
    hide Strip, Ink, Occurs;
    StripTrims(quote);
    StripKeepsInk(quote);
    var candidate := Strip(quote);
    if !Occurs(candidate, transcript) {
      var inner := candidate[1..|candidate| - 1];
      StripTrims(inner);
      StripKeepsInk(inner);
      WrappedInk(candidate);
    }
  }

  lemma InkBetween(first: char, inner: string, last: char)
    requires !IsSpace(first) && !IsSpace(last)
    ensures Ink([first] + inner + [last]) == [first] + Ink(inner) + [last]
  {
    hide Ink, IsSpace;
    InkConcat([first] + inner, [last]);
    InkConcat([first], inner);
    InkOfMark(first);
    InkOfMark(last);
  }

  lemma {:induction false} WrappedInk(s: string)
    requires |s| >= 2 && Trim(s)
    ensures Ink(s) == [s[0]] + Ink(s[1..|s| - 1]) + [s[|s| - 1]]
  {
    hide Ink, IsSpace;
    var n := |s| - 1;
    assert s == [s[0]] + s[1..n] + [s[n]];
    InkBetween(s[0], s[1..n], s[n]);
  }

  lemma InkOfMark(c: char)
    requires !IsSpace(c)
    ensures Ink([c]) == [c]
  {
    assert [c][1..] == "";
  }

  /** A verbatim quotation is kept whether or not the model wrapped it, unless the wrapped form is itself in the text. */
  lemma VerbatimIsKept(quote: string, transcript: string, open: char, close: char)
    requires IsPair(open, close) && quote != "" && Trim(quote) && Occurs(quote, transcript)
    ensures ExactGroundedQuote(quote, Some(transcript)) == Some(quote)
    ensures var wrapped := [open] + quote + [close];
            ExactGroundedQuote(wrapped, Some(transcript)) == if Occurs(wrapped, transcript) then Some(wrapped) else Some(quote)
  {
    hide Strip, Occurs;
    var wrapped := [open] + quote + [close];
    TrimmedIsStripped(quote);
    TrimmedIsStripped(wrapped);
    assert wrapped[1..|wrapped| - 1] == quote;
  }

  /** Grounding what is already grounded changes nothing. */
  lemma GroundingIsIdempotent(quote: string, transcript: string)
    requires ExactGroundedQuote(quote, Some(transcript)).Some?
    ensures var kept := ExactGroundedQuote(quote, Some(transcript)).value;
            ExactGroundedQuote(kept, Some(transcript)) == Some(kept)
  {
    hide Strip, Ink, Occurs, Trim;
    KeptIsVerbatim(quote, transcript);
    TrimmedIsStripped(ExactGroundedQuote(quote, Some(transcript)).value);
  }

  /** What is kept is empty exactly when the quotation is nothing but whitespace, and such a one is always kept. */
  lemma EmptyIffBlank(quote: string, transcript: string)
    ensures ExactGroundedQuote(quote, Some(transcript)) == Some("") <==> Blank(quote)
  {
    hide Strip, Unwrapped;
    StripKeepsInk(quote);
    assert StandsAt("", transcript, 0);
  }

  // ----- a draft's quotations -----

  datatype Quoted = Quoted(sequence: int, original: string)

  /** The last segment with this number, as the dictionary built from the segments holds it. */
  function SegmentAt(segments: seq<Segment>, sequence: int): Option<Segment> {
    if segments == [] then None
    else if segments[|segments| - 1].sequence == sequence then Some(segments[|segments| - 1])
    else SegmentAt(segments[..|segments| - 1], sequence)
  }

  function TextAt(segments: seq<Segment>, sequence: int): Option<string> {
    var at := SegmentAt(segments, sequence);
    if at.Some? then Some(at.value.text) else None
  }

  /** Every quotation stands in the segment it names: what saving an analysis by hand demands. */
  predicate AllStand(segments: seq<Segment>, quotes: seq<Quoted>) {
    forall i :: 0 <= i < |quotes| ==>
      && TextAt(segments, quotes[i].sequence).Some?
      && Occurs(quotes[i].original, TextAt(segments, quotes[i].sequence).value)
  }

  function Grounded(segments: seq<Segment>, quotes: seq<Quoted>): seq<Quoted> {
    if quotes == [] then []
    else
      var last := quotes[|quotes| - 1];
      var grounded := ExactGroundedQuote(last.original, TextAt(segments, last.sequence));
      Grounded(segments, quotes[..|quotes| - 1])
      + if grounded.Some? then [last.(original := grounded.value)] else []
  }

  method TextBySequence(segments: seq<Segment>) returns (texts: map<int, string>)
    ensures forall sequence :: (sequence in texts <==> TextAt(segments, sequence).Some?)
    ensures forall sequence :: sequence in texts ==> TextAt(segments, sequence) == Some(texts[sequence])
  {
    texts := map[];
    for i := 0 to |segments|
      invariant forall sequence :: (sequence in texts <==> TextAt(segments[..i], sequence).Some?)
      invariant forall sequence :: sequence in texts ==> TextAt(segments[..i], sequence) == Some(texts[sequence])
    {
      assert segments[..i + 1][..i] == segments[..i];
      texts := texts[segments[i].sequence := segments[i].text];
    }
    assert segments[..|segments|] == segments;
  }

  method GroundDraft(segments: seq<Segment>, quotes: seq<Quoted>) returns (kept: seq<Quoted>)
    ensures kept == Grounded(segments, quotes)
  {
    hide ExactGroundedQuote;
    var texts := TextBySequence(segments);
    kept := [];
    for i := 0 to |quotes|
      invariant kept == Grounded(segments, quotes[..i])
    {
      assert quotes[..i + 1][..i] == quotes[..i];
      var item := quotes[i];
      var grounded := ExactGroundedQuote(item.original, if item.sequence in texts then Some(texts[item.sequence]) else None);
      if grounded.Some? {
        kept := kept + [item.(original := grounded.value)];
      }
    }
    assert quotes[..|quotes|] == quotes;
  }

  /** Every quotation left in a draft stands in the segment it names. */
  lemma {:induction false} DraftIsGrounded(segments: seq<Segment>, quotes: seq<Quoted>, k: nat)
    requires k < |Grounded(segments, quotes)|
    ensures var q := Grounded(segments, quotes)[k];
            && TextAt(segments, q.sequence).Some? && Occurs(q.original, TextAt(segments, q.sequence).value)
            && ExactGroundedQuote(q.original, TextAt(segments, q.sequence)) == Some(q.original)
  {
    hide ExactGroundedQuote, Occurs, Ink, Trim;
    var front, last := quotes[..|quotes| - 1], quotes[|quotes| - 1];
    if k < |Grounded(segments, front)| {
      DraftIsGrounded(segments, front, k);
    } else {
      LastIsGrounded(last.original, TextAt(segments, last.sequence));
    }
  }

  /** So the quotations of a generated analysis can be saved by hand as they are, on the transcript they came from. */
  lemma GroundedCanBeSaved(segments: seq<Segment>, quotes: seq<Quoted>)
    ensures AllStand(segments, Grounded(segments, quotes))
  {
    hide Grounded, TextAt, Occurs, ExactGroundedQuote;
    forall k | 0 <= k < |Grounded(segments, quotes)|
      ensures TextAt(segments, Grounded(segments, quotes)[k].sequence).Some?
      ensures Occurs(Grounded(segments, quotes)[k].original, TextAt(segments, Grounded(segments, quotes)[k].sequence).value)
    {
      DraftIsGrounded(segments, quotes, k);
    }
  }

  lemma LastIsGrounded(quote: string, text: Option<string>)
    requires ExactGroundedQuote(quote, text).Some?
    ensures text.Some? && Occurs(ExactGroundedQuote(quote, text).value, text.value)
    ensures ExactGroundedQuote(ExactGroundedQuote(quote, text).value, text) == ExactGroundedQuote(quote, text)
  {
    hide Strip, Occurs, Ink, Trim;
    KeptIsVerbatim(quote, text.value);
    GroundingIsIdempotent(quote, text.value);
  }

  /** So a draft can be grounded again, after an edit or a later step, without change. */
  lemma {:induction false} GroundedTwice(segments: seq<Segment>, quotes: seq<Quoted>, n: nat)
    requires n <= |Grounded(segments, quotes)|
    ensures Grounded(segments, Grounded(segments, quotes)[..n]) == Grounded(segments, quotes)[..n]
  {
    hide ExactGroundedQuote, Occurs;
    if n > 0 {
      var all := Grounded(segments, quotes);
      GroundedTwice(segments, quotes, n - 1);
      DraftIsGrounded(segments, quotes, n - 1);
      assert all[..n][..n - 1] == all[..n - 1];
      assert all[..n] == all[..n - 1] + [all[n - 1]];
    }
  }

  // ----- the result built from a draft -----

  /** This quotation of the draft is kept. */
  predicate IsKept(segments: seq<Segment>, q: Quoted) {
    ExactGroundedQuote(q.original, TextAt(segments, q.sequence)).Some?
  }

  /** g is what is kept of q. */
  predicate KeptAs(segments: seq<Segment>, q: Quoted, g: Quoted) {
    IsKept(segments, q) && g == KeptForm(segments, q)
  }

  /** A grounded draft holds the kept forms of the draft's quotations, and nothing else. */
  lemma {:induction false} KeptComeFromDraft(segments: seq<Segment>, quotes: seq<Quoted>)
    ensures forall g :: g in Grounded(segments, quotes) ==> exists q :: q in quotes && KeptAs(segments, q, g)
    ensures forall q :: q in quotes && IsKept(segments, q) ==> KeptForm(segments, q) in Grounded(segments, quotes)
  {
    hide ExactGroundedQuote;
    if quotes != [] {
      var n := |quotes| - 1;
      KeptComeFromDraft(segments, quotes[..n]);
      var before := Grounded(segments, quotes[..n]);
      assert quotes == quotes[..n] + [quotes[n]];
      assert Grounded(segments, quotes)
          == before + if IsKept(segments, quotes[n]) then [KeptForm(segments, quotes[n])] else [];
      forall g | g in Grounded(segments, quotes)
        ensures exists q :: q in quotes && KeptAs(segments, q, g)
      {
        if g in before {
          var q :| q in quotes[..n] && KeptAs(segments, q, g);
          assert q in quotes;
        } else {
          assert KeptAs(segments, quotes[n], g);
        }
      }
    }
  }

  function KeptForm(segments: seq<Segment>, q: Quoted): Quoted
    requires IsKept(segments, q)
  {
    q.(original := ExactGroundedQuote(q.original, TextAt(segments, q.sequence)).value)
  }

  /** A grounded draft carries an empty quotation exactly when the draft had a blank one for an existing segment. */
  lemma EmptyQuoteIffBlankQuote(segments: seq<Segment>, quotes: seq<Quoted>)
    ensures (exists g :: g in Grounded(segments, quotes) && g.original == "")
       <==> (exists q :: q in quotes && BlankFor(segments, q))
  {
    hide ExactGroundedQuote, Grounded, Blank, TextAt, BlankFor, IsKept;
    KeptComeFromDraft(segments, quotes);
    forall q | q in quotes
      ensures BlankFor(segments, q) <==> IsKept(segments, q) && KeptForm(segments, q).original == ""
    {
      BlankIsKeptEmpty(segments, q);
    }
    if g :| g in Grounded(segments, quotes) && g.original == "" {
      var q :| q in quotes && KeptAs(segments, q, g);
      assert BlankFor(segments, q);
    }
  }

  lemma BlankIsKeptEmpty(segments: seq<Segment>, q: Quoted)
    ensures BlankFor(segments, q) <==> IsKept(segments, q) && KeptForm(segments, q).original == ""
  {
    hide ExactGroundedQuote, Blank, SegmentAt;
    NothingKeptWithoutText(q.original);
    if TextAt(segments, q.sequence).Some? {
      EmptyIffBlank(q.original, TextAt(segments, q.sequence).value);
    }
  }

  lemma NothingKeptWithoutText(quote: string)
    ensures ExactGroundedQuote(quote, None) == None
  {
  }

  /** A blank quotation of a segment the transcript has. */
  predicate BlankFor(segments: seq<Segment>, q: Quoted) {
    TextAt(segments, q.sequence).Some? && Blank(q.original)
  }

  /** The checks a quotation of the result is built with, given its segment. */
  predicate Presentable(s: Segment, q: Quoted) {
    q.original != "" && s.start >= 0.0 && s.end > 0.0 && 1 <= |s.speaker| <= 64
  }

  function FirstOfEach(quotes: seq<Quoted>): (r: seq<Quoted>)
    ensures |r| <= |quotes| && forall q :: q in r <==> q in quotes
  {
    if quotes == [] then []
    else
      var last := quotes[|quotes| - 1];
      assert quotes == quotes[..|quotes| - 1] + [last];
      var before := FirstOfEach(quotes[..|quotes| - 1]);
      if last in before then before else before + [last]
  }

  ghost predicate CanBuild(segments: seq<Segment>, quotes: seq<Quoted>) {
    forall q :: q in quotes ==>
      SegmentAt(segments, q.sequence).Some? && Presentable(SegmentAt(segments, q.sequence).value, q)
  }

  lemma NoQuotes()
    ensures FirstOfEach([]) == []
  {
  }

  lemma OneMoreQuote(quotes: seq<Quoted>, q: Quoted)
    ensures FirstOfEach(quotes + [q]) == FirstOfEach(quotes) + if q in FirstOfEach(quotes) then [] else [q]
  {
    assert (quotes + [q])[..|quotes|] == quotes;
  }

  /** The result holds each quotation once; building it raises on the first one that is not presentable. */
  method BuildQuotes(segments: seq<Segment>, quotes: seq<Quoted>, limit: nat) returns (r: Result<seq<Quoted>>)
    requires |quotes| <= limit
    ensures r.Success? <==> CanBuild(segments, quotes)
    ensures r.Success? ==> r.value == FirstOfEach(quotes)
  {
    hide Presentable, SegmentAt, FirstOfEach;
    NoQuotes();
    var built: seq<Quoted>, seen: set<(int, string)> := [], {};
    for i := 0 to |quotes|
      invariant built == FirstOfEach(quotes[..i]) && |built| <= i && CanBuild(segments, quotes[..i])
      invariant forall q: Quoted :: (q.sequence, q.original) in seen <==> q in built
    {
      var q := quotes[i];
      assert quotes[..i + 1] == quotes[..i] + [q];
      OneMoreQuote(quotes[..i], q);
      if (q.sequence, q.original) in seen {
        continue;
      }
      seen := seen + {(q.sequence, q.original)};
      var segment := SegmentAt(segments, q.sequence);
      if segment.None? {
        return Failure("KeyError");
      }
      if !Presentable(segment.value, q) {
        return Failure("ValidationError");
      }
      built := built + [q];
      if |built| == limit {
        assert i + 1 == |quotes|;
        assert quotes[..i + 1] == quotes;
        break;
      }
    }
    assert quotes[..|quotes|] == quotes;
    r := Success(built);
  }

  /** A stored transcript's segments, with the speaker column's width. */
  ghost predicate AllStored(segments: seq<Segment>) {
    forall i :: 0 <= i < |segments| ==> ValidSegment(segments[i]) && 1 <= |segments[i].speaker| <= 64
  }

  lemma {:induction false} SegmentAtIsStored(segments: seq<Segment>, sequence: int)
    requires AllStored(segments) && SegmentAt(segments, sequence).Some?
    ensures var s := SegmentAt(segments, sequence).value; ValidSegment(s) && 1 <= |s.speaker| <= 64
  {
    hide ValidSegment;
    if segments[|segments| - 1].sequence != sequence {
      SegmentAtIsStored(segments[..|segments| - 1], sequence);
    }
  }

  /** This quotation of a draft makes building the result fail. */
  predicate Spoils(segments: seq<Segment>, q: Quoted) {
    BlankFor(segments, q) || (IsKept(segments, q) && SegmentAt(segments, q.sequence).Some?
                              && SegmentAt(segments, q.sequence).value.end == 0.0)
  }

  /** One kept quotation is presentable exactly when it does not spoil the result. */
  lemma KeptIsPresentable(segments: seq<Segment>, q: Quoted)
    requires AllStored(segments) && IsKept(segments, q)
    ensures SegmentAt(segments, q.sequence).Some?
    ensures Presentable(SegmentAt(segments, q.sequence).value, KeptForm(segments, q)) <==> !Spoils(segments, q)
  {
    hide ExactGroundedQuote, Blank;
    NothingKeptWithoutText(q.original);
    SegmentAtIsStored(segments, q.sequence);
    EmptyIffBlank(q.original, TextAt(segments, q.sequence).value);
  }

  /** Building the result of a draft fails if and only if the draft quotes nothing from a segment there is, or
      quotes a segment that ends at time zero. */
  lemma ResultFailsIff(segments: seq<Segment>, quotes: seq<Quoted>)
    requires AllStored(segments)
    ensures CanBuild(segments, Grounded(segments, quotes)) <==> forall q :: q in quotes ==> !Spoils(segments, q)
  {
    hide ExactGroundedQuote, Grounded, Blank, Presentable, SegmentAt, TextAt, IsKept, Spoils;
    KeptComeFromDraft(segments, quotes);
    forall q | q in quotes && IsKept(segments, q)
      ensures SegmentAt(segments, q.sequence).Some?
      ensures Presentable(SegmentAt(segments, q.sequence).value, KeptForm(segments, q)) <==> !Spoils(segments, q)
    {
      KeptIsPresentable(segments, q);
    }
    forall q | q in quotes && Spoils(segments, q)
      ensures !CanBuild(segments, Grounded(segments, quotes))
    {
      SpoilsIsKept(segments, q);
      assert KeptForm(segments, q) in Grounded(segments, quotes);
    }
    forall g | g in Grounded(segments, quotes) && forall q :: q in quotes ==> !Spoils(segments, q)
      ensures SegmentAt(segments, g.sequence).Some? && Presentable(SegmentAt(segments, g.sequence).value, g)
    {
      var q :| q in quotes && KeptAs(segments, q, g);
    }
  }

  lemma SpoilsIsKept(segments: seq<Segment>, q: Quoted)
    requires Spoils(segments, q)
    ensures IsKept(segments, q)
  {
    hide ExactGroundedQuote, Blank, SegmentAt;
    if BlankFor(segments, q) {
      EmptyIffBlank(q.original, TextAt(segments, q.sequence).value);
    }
  }
}
