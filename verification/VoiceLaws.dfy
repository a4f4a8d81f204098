/** Who is heard, and what a row says, in plain intervals and characters. */
module VoiceLaws {
  import opened Prelude
  import opened Text
  import opened Sentences
  import opened Sorting
  import opened Speakers
  import opened Merge

  // ----- intervals -----

  /** The part from u to v belongs to the interval and to the turn. */
  predicate InBoth(start: real, end: real, t: Turn, u: real, v: real) {
    start <= u <= v <= end && t.start <= u && v <= t.end
  }

  /** The overlap is the length of the longest part in both, and zero when there is none. */
  lemma OverlapIsLongest(start: real, end: real, t: Turn)
    ensures Overlap(start, end, t) >= 0.0
    ensures forall u, v :: InBoth(start, end, t, u, v) ==> v - u <= Overlap(start, end, t)
    ensures Overlap(start, end, t) > 0.0 ==> exists u, v :: InBoth(start, end, t, u, v) && v - u == Overlap(start, end, t)
  {
    if Overlap(start, end, t) > 0.0 {
      assert InBoth(start, end, t, Max(start, t.start), Min(end, t.end));
    }
  }

  predicate Apart(start: real, end: real, t: Turn, x: real, y: real, distance: real) {
    start <= x <= end && t.start <= y <= t.end && (x - y == distance || y - x == distance)
  }

  /** The distance is that of the closest moments of the interval and the turn. */
  lemma DistanceIsClosest(start: real, end: real, t: Turn)
    requires start <= end && t.start <= t.end
    ensures forall x, y, d :: Apart(start, end, t, x, y, d) && d >= 0.0 ==> Distance(start, end, t) <= d
    ensures exists x, y :: Apart(start, end, t, x, y, Distance(start, end, t))
  {
    var x := if t.end < start then start else if t.start > end then end else Max(start, t.start);
    var y := if t.end < start then t.end else if t.start > end then t.start else Max(start, t.start);
    assert Apart(start, end, t, x, y, Distance(start, end, t));
  }

  /** Labels compare as strings do: at the first difference, or the shorter one first. */
  predicate DiffersAt(a: string, b: string, k: nat) {
    k <= |a| && k < |b| && a[..k] == b[..k] && (k < |a| ==> a[k] < b[k])
  }

  lemma {:induction false} TextLessIs(a: string, b: string)
    ensures TextLess(a, b) <==> exists k: nat :: DiffersAt(a, b, k)
  {
    if b != "" && (a == "" || a[0] < b[0]) {
      assert DiffersAt(a, b, 0);
    } else if b != "" && a[0] == b[0] {
      TextLessIs(a[1..], b[1..]);
      if k: nat :| DiffersAt(a[1..], b[1..], k) {
        assert a[..k + 1] == [a[0]] + a[1..][..k] && b[..k + 1] == [b[0]] + b[1..][..k];
        assert DiffersAt(a, b, k + 1);
      }
      if k: nat :| DiffersAt(a, b, k) {
        assert k > 0;
        assert a[1..][..k - 1] == a[..k][1..] && b[1..][..k - 1] == b[..k][1..];
        assert DiffersAt(a[1..], b[1..], k - 1);
      }
    }
  }

  // ----- who speaks -----

  predicate AtMiddle(start: real, end: real, t: Turn) {
    t.start <= (start + end) / 2.0 <= t.end
  }

  predicate EarlierTurn(a: Turn, b: Turn) {
    || a.start < b.start
    || (a.start == b.start && (a.end < b.end || (a.end == b.end && TextLess(a.speaker, b.speaker))))
  }

  /** The longer overlap wins; then the turn that holds the middle of the interval; then the earlier turn. */
  predicate Outvoices(start: real, end: real, a: Turn, b: Turn) {
    || Overlap(start, end, a) > Overlap(start, end, b)
    || (Overlap(start, end, a) == Overlap(start, end, b)
        && if AtMiddle(start, end, a) != AtMiddle(start, end, b) then AtMiddle(start, end, a) else EarlierTurn(a, b))
  }

  /** The shorter distance wins; then the earlier turn. */
  predicate Nearer(start: real, end: real, a: Turn, b: Turn) {
    || Distance(start, end, a) < Distance(start, end, b)
    || (Distance(start, end, a) == Distance(start, end, b) && EarlierTurn(a, b))
  }

  ghost predicate Wins(start: real, end: real, turns: seq<Turn>, t: Turn) {
    && t in turns && Overlap(start, end, t) > 0.0
    && forall u :: u in turns && u != t && Overlap(start, end, u) > 0.0 ==> Outvoices(start, end, t, u)
  }

  ghost predicate IsNearest(start: real, end: real, turns: seq<Turn>, tolerance: real, t: Turn) {
    && t in turns && Distance(start, end, t) <= tolerance
    && forall u :: u in turns && u != t ==> Nearer(start, end, t, u)
  }

  /** The speaker of an interval: of the winning turn among those that overlap it, else of the nearest one in
      reach, else nobody known. */
  ghost predicate SpokenBy(start: real, end: real, turns: seq<Turn>, tolerance: real, speaker: string) {
    if exists t :: t in turns && Overlap(start, end, t) > 0.0 then
      exists t :: Wins(start, end, turns, t) && speaker == t.speaker
    else if exists t :: t in turns && Distance(start, end, t) <= tolerance then
      exists t :: IsNearest(start, end, turns, tolerance, t) && speaker == t.speaker
    else speaker == "SPEAKER_UNKNOWN"
  }

  lemma LeastWins(start: real, end: real, turns: seq<Turn>, t: Turn)
    requires Least(Overlapping, start, end, turns, |turns|, t)
    ensures Wins(start, end, turns, t)
  {
    hide Overlap, KeyLess, TextLess;
    forall u | u in turns && u != t && Overlap(start, end, u) > 0.0
      ensures Outvoices(start, end, t, u)
    {
      var i :| 0 <= i < |turns| && turns[i] == u;
      assert Candidate(Overlapping, start, end, turns[i]);
      KeyLessOrders(KeyOf(Overlapping, start, end, t), KeyOf(Overlapping, start, end, u), KeyOf(Overlapping, start, end, u));
      LessOutvoices(start, end, t, u);
    }
  }

  lemma LessOutvoices(start: real, end: real, t: Turn, u: Turn)
    requires t != u
    ensures KeyOf(Overlapping, start, end, t) != KeyOf(Overlapping, start, end, u)
    ensures KeyLess(KeyOf(Overlapping, start, end, t), KeyOf(Overlapping, start, end, u)) ==> Outvoices(start, end, t, u)
    ensures KeyOf(Nearest, start, end, t) != KeyOf(Nearest, start, end, u)
    ensures KeyLess(KeyOf(Nearest, start, end, t), KeyOf(Nearest, start, end, u)) ==> Nearer(start, end, t, u)
  {
    hide Overlap, Distance, TextLess;
  }

  lemma LeastIsNearestTurn(start: real, end: real, turns: seq<Turn>, tolerance: real, t: Turn)
    requires Least(Nearest, start, end, turns, |turns|, t)
    requires exists u :: u in turns && Distance(start, end, u) <= tolerance
    ensures IsNearest(start, end, turns, tolerance, t)
  {
    hide Distance, KeyLess, TextLess;
    LeastIsNearest(start, end, turns, t);
    forall u | u in turns && u != t
      ensures Nearer(start, end, t, u)
    {
      var i :| 0 <= i < |turns| && turns[i] == u;
      assert Candidate(Nearest, start, end, turns[i]);
      KeyLessOrders(KeyOf(Nearest, start, end, t), KeyOf(Nearest, start, end, u), KeyOf(Nearest, start, end, u));
      LessOutvoices(start, end, t, u);
    }
  }

  lemma ChoiceIsSpoken(start: real, end: real, turns: seq<Turn>, tolerance: real)
    requires start <= end && ValidTurns(turns) && tolerance >= 0.0
    ensures SpokenBy(start, end, turns, tolerance, ChooseSpeaker(start, end, turns, tolerance))
  {
    hide Overlap, Distance, Least, ChooseSpeaker, Wins, IsNearest;
    var speaker := ChooseSpeaker(start, end, turns, tolerance);
    ChoiceIsExact(start, end, turns, tolerance, speaker);
    if exists t :: t in turns && Overlap(start, end, t) > 0.0 {
      var t :| Least(Overlapping, start, end, turns, |turns|, t) && t.speaker == speaker;
      LeastWins(start, end, turns, t);
    } else if exists t :: t in turns && Distance(start, end, t) <= tolerance {
      var t :| Least(Nearest, start, end, turns, |turns|, t) && t.speaker == speaker;
      LeastIsNearestTurn(start, end, turns, tolerance, t);
    }
  }

  lemma OneWinner(start: real, end: real, turns: seq<Turn>, tolerance: real, t: Turn, u: Turn)
    ensures Wins(start, end, turns, t) && Wins(start, end, turns, u) ==> t == u
    ensures IsNearest(start, end, turns, tolerance, t) && IsNearest(start, end, turns, tolerance, u) ==> t == u
  {
    hide Overlap, Distance, TextLess;
    TextLessOrders(t.speaker, u.speaker, u.speaker);
  }

  /** The rule names exactly one speaker, the one the program chooses. */
  lemma SpeakerIsExact(start: real, end: real, turns: seq<Turn>, tolerance: real, speaker: string)
    requires start <= end && ValidTurns(turns) && tolerance >= 0.0
    ensures ChooseSpeaker(start, end, turns, tolerance) == speaker <==> SpokenBy(start, end, turns, tolerance, speaker)
  {
    hide Overlap, Distance, ChooseSpeaker, Wins, IsNearest;
    ChoiceIsSpoken(start, end, turns, tolerance);
    forall t, u
      ensures Wins(start, end, turns, t) && Wins(start, end, turns, u) ==> t == u
      ensures IsNearest(start, end, turns, tolerance, t) && IsNearest(start, end, turns, tolerance, u) ==> t == u
    {
      OneWinner(start, end, turns, tolerance, t, u);
    }
  }

  // ----- from the diarization's own lists -----

  lemma SameTurns(turns: seq<Turn>)
    ensures forall t :: t in SortTurns(turns) <==> t in turns
  {
    TurnLeOrders(turns);
    SortKeepsItems(TurnLe, turns);
  }

  lemma SortKeepsItems<T(!new)>(le: (T, T) -> bool, s: seq<T>)
    requires Orders(le, s)
    ensures forall x :: x in Sort(le, s) <==> x in s
  {
    SameItems(Sort(le, s), s);
    SameItems(s, Sort(le, s));
  }

  lemma StillValidTurns(a: seq<Turn>, b: seq<Turn>)
    requires ValidTurns(a) && forall t :: t in b ==> t in a
    ensures ValidTurns(b)
  {
    forall i | 0 <= i < |b|
      ensures ValidTurn(b[i])
    {
      assert b[i] in b;
    }
  }

  lemma SpokenByItems(start: real, end: real, a: seq<Turn>, b: seq<Turn>, tolerance: real, speaker: string)
    requires forall t :: t in a <==> t in b
    ensures SpokenBy(start, end, a, tolerance, speaker) <==> SpokenBy(start, end, b, tolerance, speaker)
    ensures Simultaneous(start, end, a) <==> Simultaneous(start, end, b)
  {
    hide Overlap, Distance, Outvoices, Nearer;
    forall t
      ensures Wins(start, end, a, t) <==> Wins(start, end, b, t)
      ensures IsNearest(start, end, a, tolerance, t) <==> IsNearest(start, end, b, tolerance, t)
    {
    }
    forall t, u, from, to
      ensures SharePart(start, end, a, t, u, from, to) <==> SharePart(start, end, b, t, u, from, to)
    {
    }
  }

  /** Bare punctuation: something is said, and no letter or digit in it. */
  ghost predicate NoWord(text: string, alnum: char -> bool) {
    && (exists i :: 0 <= i < |text| && !IsSpace(text[i]))
    && forall i :: 0 <= i < |text| ==> !alnum(text[i])
  }

  lemma PunctuationIs(text: string, alnum: char -> bool)
    requires forall c :: IsSpace(c) ==> !alnum(c)
    ensures PunctuationOnly(text, alnum) <==> NoWord(text, alnum)
  {
    hide Strip, IsSpace;
    var a, b := StripIsMiddle(text);
    if a < b {
      assert forall i :: a <= i < b ==> text[i] == Strip(text)[i - a];
    }
  }

  /** A word is judged by who speaks in the exclusive timeline, or in the regular one where there is none, and by
      whether two people speak at once in the regular one; bare punctuation after another word goes with that word. */
  lemma WordIsJudged(exclusive: seq<Turn>, regular: seq<Turn>, tolerance: real, alnum: char -> bool,
                     words: seq<Word>, judged: seq<Assigned>, i: nat)
    requires ValidTurns(exclusive) && ValidTurns(regular) && tolerance >= 0.0 && i < |words|
    requires forall c :: IsSpace(c) ==> !alnum(c)
    requires forall k :: 0 <= k < |words| ==> ValidWord(words[k])
    requires IsAssignment(Prepare(exclusive, regular, tolerance, alnum), words, judged)
    ensures judged[i].word == words[i]
    ensures if i > 0 && NoWord(words[i].text, alnum)
            then judged[i].speaker == judged[i - 1].speaker && judged[i].hasOverlap == judged[i - 1].hasOverlap
            else SpokenBy(words[i].start, words[i].end, if |exclusive| > 0 then exclusive else regular, tolerance, judged[i].speaker)
                 && (judged[i].hasOverlap <==> Simultaneous(words[i].start, words[i].end, regular))
  {
    hide PunctuationOnly, NoWord, ChooseSpeaker, Simultaneous, SpokenBy, SortTurns, ByHead, IsSpace;
    var v := Prepare(exclusive, regular, tolerance, alnum);
    var primary := if |exclusive| > 0 then exclusive else regular;
    PunctuationIs(words[i].text, alnum);
    NextByHead(v, words, i);
    if !(i > 0 && NoWord(words[i].text, alnum)) {
      SameTurns(primary);
      SameTurns(regular);
      StillValidTurns(primary, v.primary);
      SpeakerIsExact(words[i].start, words[i].end, v.primary, tolerance, judged[i].speaker);
      SpokenByItems(words[i].start, words[i].end, v.primary, primary, tolerance, judged[i].speaker);
      SpokenByItems(words[i].start, words[i].end, v.regular, regular, tolerance, judged[i].speaker);
    }
  }

  // ----- what a row says -----

  predicate LetterOrDigit(c: char) {
    'a' <= c <= 'z' || 'A' <= c <= 'Z' || '0' <= c <= '9'
  }

  /** Two neighbours need a space exactly when an ASCII letter or digit faces another. */
  predicate Face(a: string, b: string) {
    a != "" && b != "" && LetterOrDigit(a[|a| - 1]) && LetterOrDigit(b[0])
  }

  /** The words of a run with a space before each one that faces its neighbour. */
  function Spaced(words: seq<Word>, n: nat): seq<string>
    requires n <= |words|
  {
    seq(n, k requires 0 <= k < n =>
          (if k > 0 && Face(words[k - 1].text, words[k].text) then " " else "") + words[k].text)
  }

  lemma FaceIsSeparator(a: string, b: string)
    ensures NeedsSeparator(a, b) <==> Face(a, b)
  {
  }

  /** The text of a run is its words in order, with single spaces just there. */
  lemma {:induction false} RunReads(group: seq<Assigned>, n: nat)
    requires n <= |group| && forall k :: 0 <= k < |group| ==> group[k].word.text != ""
    ensures JoinWords(group, n) == Flatten(Spaced(WordsOf(group), n))
    ensures n > 0 ==> JoinWords(group, n) != ""
                      && JoinWords(group, n)[|JoinWords(group, n)| - 1] == group[n - 1].word.text[|group[n - 1].word.text| - 1]
  {
    hide NeedsSeparator, Flatten, Face, JoinWords, Spaced;
    NothingReads(group);
    if n == 0 {
      FlattenNone<char>();
    } else {
      RunReads(group, n - 1);
      OneMoreReads(group, n);
      OneMoreSpaced(group, n);
      var piece := (if n > 1 && Face(group[n - 2].word.text, group[n - 1].word.text) then " " else "") + group[n - 1].word.text;
      FlattenMore(Spaced(WordsOf(group), n - 1), piece);
      SameLastFace(JoinWords(group, n - 1), if n > 1 then group[n - 2].word.text else "", group[n - 1].word.text);
    }
  }

  lemma NothingReads(group: seq<Assigned>)
    ensures JoinWords(group, 0) == "" && Spaced(WordsOf(group), 0) == []
  {
  }

  lemma OneMoreReads(group: seq<Assigned>, n: nat)
    requires 0 < n <= |group|
    ensures var text, next := JoinWords(group, n - 1), group[n - 1].word.text;
            JoinWords(group, n) == text + ((if Face(text, next) then " " else "") + next)
  {
    hide NeedsSeparator, Face;
    FaceIsSeparator(JoinWords(group, n - 1), group[n - 1].word.text);
  }

  lemma OneMoreSpaced(group: seq<Assigned>, n: nat)
    requires 0 < n <= |group|
    ensures Spaced(WordsOf(group), n)
         == Spaced(WordsOf(group), n - 1)
            + [(if n > 1 && Face(group[n - 2].word.text, group[n - 1].word.text) then " " else "") + group[n - 1].word.text]
  {
    hide Face;
    var words := WordsOf(group);
    var last := (if n > 1 && Face(words[n - 2].text, words[n - 1].text) then " " else "") + words[n - 1].text;
    var longer, shorter := Spaced(words, n), Spaced(words, n - 1);
    assert longer[n - 1] == last;
    assert forall k :: 0 <= k < n - 1 ==> longer[k] == shorter[k];
  }

  lemma SameLastFace(text: string, last: string, next: string)
    requires text == "" <==> last == ""
    requires last != "" ==> text[|text| - 1] == last[|last| - 1]
    ensures Face(text, next) <==> Face(last, next)
    ensures last == "" ==> !Face(last, next)
  {
  }

  /** The words that are said are exactly the ones that are not blank, each where it stood. */
  lemma {:induction false} SpokenPlaces(words: seq<Word>) returns (from: seq<nat>)
    ensures Increasing(from) && (forall j :: 0 <= j < |from| ==> from[j] < |words|)
    ensures forall i :: 0 <= i < |words| ==> (!Blank(words[i].text) <==> i in from)
    ensures |Spoken(words)| == |from| && forall j :: 0 <= j < |from| ==> Spoken(words)[j] == words[from[j]]
  {
    hide Blank, Spoken, Increasing;
    if words == [] {
      from := [];
      NoPlaces();
      SpokenNone();
    } else {
      var n := |words| - 1;
      var front := SpokenPlaces(words[..n]);
      from := PlaceAppended(front, n, !Blank(words[n].text));
      SpokenMore(words[..n], words[n]);
      assert words == words[..n] + [words[n]];
    }
  }

  lemma SpokenNone()
    ensures Spoken([]) == []
  {
  }

  lemma SpokenMore(words: seq<Word>, last: Word)
    ensures Spoken(words + [last]) == Spoken(words) + if Blank(last.text) then [] else [last]
  {
    assert (words + [last])[..|words|] == words;
  }
}
