/** Reconciling the words Whisper heard with the turns the diarization found (processing/merge.py). */
module Merge {
  import opened Prelude
  import opened Text
  import opened Sentences
  import opened Sorting
  import opened Speakers

  datatype Word = Word(start: real, end: real, text: string)

  /** One Whisper segment. */
  datatype Heard = Heard(start: real, end: real, text: string, words: seq<Word>)

  datatype Merged = Merged(segment: Segment, hasOverlap: bool)

  predicate ValidWord(w: Word) {
    0.0 <= w.start <= w.end && w.text != ""
  }

  ghost predicate ValidHeard(h: Heard) {
    0.0 <= h.start < h.end && forall i :: 0 <= i < |h.words| ==> ValidWord(h.words[i])
  }

  /** The sorted timelines and settings one merge works with; alnum stands for str.isalnum. */
  datatype Voices = Voices(primary: seq<Turn>, regular: seq<Turn>, tolerance: real, alnum: char -> bool)

  ghost predicate ValidVoices(v: Voices) {
    ValidTurns(v.primary) && v.tolerance >= 0.0
  }

  /** Both timelines sorted; the exclusive one decides who speaks, unless it is empty. */
  function Prepare(exclusive: seq<Turn>, regular: seq<Turn>, tolerance: real, alnum: char -> bool): Voices {
    Voices(SortTurns(if exclusive != [] then exclusive else regular), SortTurns(regular), tolerance, alnum)
  }

  // ----- characters -----

  predicate AsciiAlnum(c: char) {
    '0' <= c <= '9' || 'A' <= c <= 'Z' || 'a' <= c <= 'z'
  }

  predicate PunctuationOnly(text: string, alnum: char -> bool) {
    Strip(text) != "" && forall i :: 0 <= i < |Strip(text)| ==> !alnum(Strip(text)[i])
  }

  predicate NeedsSeparator(existing: string, next: string) {
    && existing != "" && next != ""
    && !IsSpace(existing[|existing| - 1]) && !IsSpace(next[0])
    && AsciiAlnum(existing[|existing| - 1]) && AsciiAlnum(next[0])
  }

  // ----- time order, ties in the original order -----

  predicate TimeLe(aStart: real, aEnd: real, aIndex: nat, bStart: real, bEnd: real, bIndex: nat) {
    aStart < bStart || (aStart == bStart && (aEnd < bEnd || (aEnd == bEnd && aIndex <= bIndex)))
  }

  predicate WordLe(a: (nat, Word), b: (nat, Word)) {
    TimeLe(a.1.start, a.1.end, a.0, b.1.start, b.1.end, b.0)
  }

  predicate HeardLe(a: (nat, Heard), b: (nat, Heard)) {
    TimeLe(a.1.start, a.1.end, a.0, b.1.start, b.1.end, b.0)
  }

  function Number<T>(s: seq<T>): (r: seq<(nat, T)>)
    ensures |r| == |s| && forall i :: 0 <= i < |r| ==> r[i] == (i, s[i])
  {
    seq(|s|, i requires 0 <= i < |s| => (i, s[i]))
  }

  function Item<T>(numbered: (nat, T)): T {
    numbered.1
  }

  function Items<T>(s: seq<(nat, T)>): seq<T> {
    Map((numbered: (nat, T)) => Item(numbered), s)
  }

  function InTime(words: seq<Word>): seq<Word> {
    Items(Sort(WordLe, Number(words)))
  }

  function HeardInTime(segments: seq<Heard>): seq<Heard> {
    Items(Sort(HeardLe, Number(segments)))
  }

  lemma ItemsMultiset<T>(a: seq<(nat, T)>, b: seq<(nat, T)>)
    requires multiset(a) == multiset(b)
    ensures multiset(Items(a)) == multiset(Items(b))
  {
    MapIgnoresOrder((numbered: (nat, T)) => Item(numbered), a, b);
  }

  lemma WordLeOrders(words: seq<Word>)
    ensures Orders(WordLe, Number(words))
  {
  }

  lemma HeardLeOrders(segments: seq<Heard>)
    ensures Orders(HeardLe, Number(segments))
  {
  }

  /** Every place of the sorted list takes one item of its own, in the order's sequence. */
  lemma SortedPlaces<T(!new)>(le: ((nat, T), (nat, T)) -> bool, s: seq<T>) returns (from: seq<nat>)
    requires Orders(le, Number(s))
    ensures |from| == |s| == |Items(Sort(le, Number(s)))| && AllDistinct(from)
    ensures forall i :: 0 <= i < |from| ==> from[i] < |s| && Items(Sort(le, Number(s)))[i] == s[from[i]]
    ensures forall i, j :: 0 <= i < j < |from| ==> le((from[i], s[from[i]]), (from[j], s[from[j]]))
  {
    var numbered := Number(s);
    var sorted := Sort(le, numbered);
    SortSorts(le, numbered, numbered);
    SameSize(sorted, numbered);
    SameItems(sorted, numbered);
    DistinctStays(numbered, sorted);
    from := seq(|sorted|, i requires 0 <= i < |sorted| => sorted[i].0);
    forall i | 0 <= i < |sorted|
      ensures from[i] < |s| && sorted[i] == (from[i], s[from[i]])
    {
      assert sorted[i] in numbered;
    }
  }

  /** a comes before b: earlier start, or as early with an earlier end, or both at once and first in the original. */
  predicate StandsBefore(aStart: real, aEnd: real, aPlace: nat, bStart: real, bEnd: real, bPlace: nat) {
    aStart < bStart || (aStart == bStart && (aEnd < bEnd || (aEnd == bEnd && aPlace < bPlace)))
  }

  /** Sorting rearranges the words by start and then end, ties in their original order, and nothing else. */
  lemma InTimeArranges(words: seq<Word>) returns (from: seq<nat>)
    ensures multiset(InTime(words)) == multiset(words)
    ensures |from| == |words| == |InTime(words)| && AllDistinct(from)
    ensures forall i :: 0 <= i < |from| ==> from[i] < |words| && InTime(words)[i] == words[from[i]]
    ensures forall i, j :: 0 <= i < j < |from| ==>
              StandsBefore(InTime(words)[i].start, InTime(words)[i].end, from[i],
                           InTime(words)[j].start, InTime(words)[j].end, from[j])
  {
    WordLeOrders(words);
    from := SortedPlaces(WordLe, words);
    ItemsMultiset(Sort(WordLe, Number(words)), Number(words));
    assert Items(Number(words)) == words;
    forall i, j | 0 <= i < j < |from|
      ensures WordLe((from[i], words[from[i]]), (from[j], words[from[j]])) && from[i] != from[j]
    {
    }
  }

  /** So are the Whisper segments. */
  lemma HeardInTimeArranges(segments: seq<Heard>) returns (from: seq<nat>)
    ensures multiset(HeardInTime(segments)) == multiset(segments)
    ensures |from| == |segments| == |HeardInTime(segments)| && AllDistinct(from)
    ensures forall i :: 0 <= i < |from| ==> from[i] < |segments| && HeardInTime(segments)[i] == segments[from[i]]
    ensures forall i, j :: 0 <= i < j < |from| ==>
              StandsBefore(HeardInTime(segments)[i].start, HeardInTime(segments)[i].end, from[i],
                           HeardInTime(segments)[j].start, HeardInTime(segments)[j].end, from[j])
  {
    HeardLeOrders(segments);
    from := SortedPlaces(HeardLe, segments);
    ItemsMultiset(Sort(HeardLe, Number(segments)), Number(segments));
    assert Items(Number(segments)) == segments;
    forall i, j | 0 <= i < j < |from|
      ensures HeardLe((from[i], segments[from[i]]), (from[j], segments[from[j]])) && from[i] != from[j]
    {
    }
  }

  // ----- a speaker for every word -----

  datatype Assigned = Assigned(word: Word, speaker: string, hasOverlap: bool)

  ghost function Judged(v: Voices, w: Word): Assigned {
    Assigned(w, ChooseSpeaker(w.start, w.end, v.primary, v.tolerance), Simultaneous(w.start, w.end, v.regular))
  }

  /** The word whose judgement word i goes by: itself, or for bare punctuation the one it trails. */
  function Head(v: Voices, words: seq<Word>, i: nat): (h: nat)
    requires i < |words|
    ensures h <= i && forall k :: h < k <= i ==> PunctuationOnly(words[k].text, v.alnum)
    ensures h == 0 || !PunctuationOnly(words[h].text, v.alnum)
  {
    if i > 0 && PunctuationOnly(words[i].text, v.alnum) then Head(v, words, i - 1) else i
  }

  ghost predicate IsAssignment(v: Voices, words: seq<Word>, judged: seq<Assigned>) {
    |judged| == |words| && AssignedUpTo(v, words, judged)
  }

  ghost predicate AssignedUpTo(v: Voices, words: seq<Word>, judged: seq<Assigned>) {
    |judged| <= |words| && forall i :: 0 <= i < |judged| ==> judged[i] == ByHead(v, words, i)
  }

  ghost function ByHead(v: Voices, words: seq<Word>, i: nat): Assigned
    requires i < |words|
  {
    Judged(v, words[Head(v, words, i)]).(word := words[i])
  }

  lemma NextByHead(v: Voices, words: seq<Word>, i: nat)
    requires i < |words|
    ensures if i > 0 && PunctuationOnly(words[i].text, v.alnum)
            then ByHead(v, words, i) == ByHead(v, words, i - 1).(word := words[i])
            else ByHead(v, words, i) == Judged(v, words[i])
  {
    hide PunctuationOnly, ChooseSpeaker, Simultaneous;
  }

  method AssignWords(v: Voices, words: seq<Word>) returns (judged: seq<Assigned>)
    requires forall i :: 0 <= i < |words| ==> ValidWord(words[i])
    ensures IsAssignment(v, InTime(words), judged)
  {
    hide PunctuationOnly, ChooseSpeaker, Simultaneous, InTime, ByHead;
    var ordered := InTime(words);
    var _ := InTimeArranges(words);
    StillValid(words, ordered);
    judged := [];
    for i := 0 to |ordered|
      invariant |judged| == i && AssignedUpTo(v, ordered, judged)
    {
      var w := ordered[i];
      NextByHead(v, ordered, i);
      if PunctuationOnly(w.text, v.alnum) && judged != [] {
        judged := judged + [Assigned(w, judged[i - 1].speaker, judged[i - 1].hasOverlap)];
      } else {
        var overlap := HasSimultaneousSpeech(w.start, w.end, v.regular);
        judged := judged + [Assigned(w, ChooseSpeaker(w.start, w.end, v.primary, v.tolerance), overlap)];
      }
    }
  }

  lemma StillValid(words: seq<Word>, ordered: seq<Word>)
    requires multiset(words) == multiset(ordered) && forall i :: 0 <= i < |words| ==> ValidWord(words[i])
    ensures forall i :: 0 <= i < |ordered| ==> ValidWord(ordered[i])
  {
    hide ValidWord;
    SameItems(ordered, words);
    forall i | 0 <= i < |ordered|
      ensures ValidWord(ordered[i])
    {
      assert ordered[i] in ordered;
    }
  }

  // ----- runs of one speaker -----

  predicate OneSpeaker(group: seq<Assigned>) {
    group != [] && forall i :: 0 <= i < |group| ==> group[i].speaker == group[0].speaker
  }

  /** A split of the words, in order, into the longest stretches of one speaker. */
  ghost predicate AreRuns(groups: seq<seq<Assigned>>, judged: seq<Assigned>) {
    && Flatten(groups) == judged
    && (forall k :: 0 <= k < |groups| ==> OneSpeaker(groups[k]))
    && (forall k :: 0 < k < |groups| ==> Changes(groups, k))
  }

  predicate Changes(groups: seq<seq<Assigned>>, k: nat)
    requires 0 < k < |groups|
  {
    groups[k - 1] != [] && groups[k] != [] && groups[k - 1][0].speaker != groups[k][0].speaker
  }

  lemma NewRun(groups: seq<seq<Assigned>>, judged: seq<Assigned>, item: Assigned)
    requires AreRuns(groups, judged)
    requires groups == [] || groups[|groups| - 1] == [] || groups[|groups| - 1][0].speaker != item.speaker
    ensures AreRuns(groups + [[item]], judged + [item])
  {
    var longer := groups + [[item]];
    assert longer[..|groups|] == groups;
    forall k | 0 < k < |longer|
      ensures Changes(longer, k)
    {
      if k < |groups| {
        assert Changes(groups, k);
      }
    }
  }

  lemma LongerRun(groups: seq<seq<Assigned>>, judged: seq<Assigned>, item: Assigned)
    requires AreRuns(groups, judged)
    requires groups != [] && groups[|groups| - 1] != [] && groups[|groups| - 1][0].speaker == item.speaker
    ensures AreRuns(groups[..|groups| - 1] + [groups[|groups| - 1] + [item]], judged + [item])
  {
    var n := |groups| - 1;
    var last := groups[n];
    var longer := groups[..n] + [last + [item]];
    assert longer[..n] == groups[..n];
    assert Flatten(groups[..n]) + (last + [item]) == (Flatten(groups[..n]) + last) + [item];
    assert OneSpeaker(last + [item]) by {
      assert OneSpeaker(last);
    }
    forall k | 0 < k < |longer|
      ensures Changes(longer, k)
    {
      assert Changes(groups, k);
    }
  }

  method GroupBySpeaker(judged: seq<Assigned>) returns (groups: seq<seq<Assigned>>)
    ensures AreRuns(groups, judged)
  {
    hide Flatten, Changes;
    groups := [];
    EmptySplit();
    for i := 0 to |judged|
      invariant AreRuns(groups, judged[..i])
    {
      var item := judged[i];
      assert judged[..i + 1] == judged[..i] + [item];
      var n := |groups|;
      assert n > 0 ==> OneSpeaker(groups[n - 1]);
      if groups == [] || groups[n - 1][|groups[n - 1]| - 1].speaker != item.speaker {
        NewRun(groups, judged[..i], item);
        groups := groups + [[item]];
      } else {
        LongerRun(groups, judged[..i], item);
        groups := groups[..n - 1] + [groups[n - 1] + [item]];
      }
    }
    assert judged[..|judged|] == judged;
  }

  lemma EmptySplit()
    ensures AreRuns([], [])
  {
  }

  /** There is only one such split. */
  lemma {:induction false} RunsAreUnique(a: seq<seq<Assigned>>, b: seq<seq<Assigned>>, judged: seq<Assigned>)
    requires AreRuns(a, judged) && AreRuns(b, judged)
    ensures a == b
    decreases |judged|
  {
    if a == [] || b == [] {
      EmptyRuns(a);
      EmptyRuns(b);
    } else {
      var short := judged[..|judged| - 1];
      LastOfRuns(a, judged);
      LastOfRuns(b, judged);
      RunsAreUnique(Shorter(a), Shorter(b), short);
      LongerAgain(a, judged);
      LongerAgain(b, judged);
    }
  }

  lemma EmptyRuns(groups: seq<seq<Assigned>>)
    requires forall k :: 0 <= k < |groups| ==> OneSpeaker(groups[k])
    ensures Flatten(groups) == [] <==> groups == []
  {
  }

  /** The split without its last word. */
  function Shorter(groups: seq<seq<Assigned>>): seq<seq<Assigned>>
    requires groups != [] && groups[|groups| - 1] != []
  {
    var n := |groups| - 1;
    var last := groups[n];
    if |last| == 1 then groups[..n] else groups[..n] + [last[..|last| - 1]]
  }

  lemma LastOfRuns(groups: seq<seq<Assigned>>, judged: seq<Assigned>)
    requires AreRuns(groups, judged) && groups != []
    ensures judged != [] && groups[|groups| - 1] != []
    ensures AreRuns(Shorter(groups), judged[..|judged| - 1])
  {
    var n := |groups| - 1;
    var last := groups[n];
    assert OneSpeaker(last);
    var shorter := Shorter(groups);
    assert judged == Flatten(groups[..n]) + last;
    assert judged[..|judged| - 1] == Flatten(groups[..n]) + last[..|last| - 1];
    if |last| > 1 {
      assert shorter[..n] == groups[..n];
      assert OneSpeaker(shorter[n]);
    }
    forall k | 0 < k < |shorter|
      ensures Changes(shorter, k)
    {
      assert Changes(groups, k);
    }
  }

  /** The last word extends the split before it, or starts a run, according to its speaker alone. */
  lemma LongerAgain(groups: seq<seq<Assigned>>, judged: seq<Assigned>)
    requires AreRuns(groups, judged) && groups != [] && judged != [] && groups[|groups| - 1] != []
    ensures var s := Shorter(groups); var item := judged[|judged| - 1];
            groups == if s == [] || s[|s| - 1] == [] || s[|s| - 1][0].speaker != item.speaker then s + [[item]]
                      else s[..|s| - 1] + [s[|s| - 1] + [item]]
  {
    var n := |groups| - 1;
    var last := groups[n];
    assert OneSpeaker(last);
    assert judged == Flatten(groups[..n]) + last;
    assert groups == groups[..n] + [last];
    if n > 0 {
      assert Changes(groups, n);
    }
    if |last| > 1 {
      assert last == last[..|last| - 1] + [last[|last| - 1]];
      assert Shorter(groups)[..n] == groups[..n];
    } else {
      assert last == [last[0]];
    }
  }

  // ----- text of a run -----

  function JoinWords(group: seq<Assigned>, n: nat): string
    requires n <= |group|
  {
    if n == 0 then ""
    else
      var text := JoinWords(group, n - 1);
      text + (if NeedsSeparator(text, group[n - 1].word.text) then " " else "") + group[n - 1].word.text
  }

  method JoinWordText(group: seq<Assigned>) returns (text: string)
    ensures text == JoinWords(group, |group|)
  {
    text := "";
    for i := 0 to |group|
      invariant text == JoinWords(group, i)
    {
      var next := group[i].word.text;
      if NeedsSeparator(text, next) {
        text := text + " ";
      }
      text := text + next;
    }
  }

  function InkOfWords(words: seq<Word>, n: nat): string
    requires n <= |words|
  {
    if n == 0 then "" else InkOfWords(words, n - 1) + Ink(words[n - 1].text)
  }

  function WordsOf(group: seq<Assigned>): (r: seq<Word>)
    ensures |r| == |group| && forall i :: 0 <= i < |r| ==> r[i] == group[i].word
  {
    seq(|group|, i requires 0 <= i < |group| => group[i].word)
  }

  lemma GapHasNoInk(text: string, gap: string, next: string)
    requires gap == "" || gap == " "
    ensures Ink(text + gap + next) == Ink(text) + Ink(next)
  {
    InkConcat(text + gap, next);
    InkConcat(text, gap);
    InkOfBlank(gap);
  }

  lemma {:induction false} JoinKeepsInk(group: seq<Assigned>, n: nat)
    requires n <= |group|
    ensures Ink(JoinWords(group, n)) == InkOfWords(WordsOf(group), n)
  {
    hide Ink, NeedsSeparator;
    if n == 0 {
      InkOfBlank("");
    } else {
      JoinKeepsInk(group, n - 1);
      var text := JoinWords(group, n - 1);
      var gap := if NeedsSeparator(text, group[n - 1].word.text) then " " else "";
      GapHasNoInk(text, gap, group[n - 1].word.text);
    }
  }

  lemma {:induction false} InkOfWordsConcat(a: seq<Word>, b: seq<Word>, n: nat)
    requires n <= |b|
    ensures InkOfWords(a + b, |a| + n) == InkOfWords(a, |a|) + InkOfWords(b, n)
  {
    hide Ink;
    if n == 0 {
      InkOfWordsPrefix(a, b, |a|);
    } else {
      InkOfWordsConcat(a, b, n - 1);
    }
  }

  lemma {:induction false} InkOfWordsPrefix(a: seq<Word>, b: seq<Word>, n: nat)
    requires n <= |a|
    ensures InkOfWords(a + b, n) == InkOfWords(a, n)
  {
    if n > 0 {
      InkOfWordsPrefix(a, b, n - 1);
    }
  }

  // ----- one Whisper segment -----

  function Spoken(words: seq<Word>): (r: seq<Word>)
    ensures forall w :: w in r <==> w in words && !Blank(w.text)
  {
    if words == [] then []
    else
      var last := words[|words| - 1];
      assert words == words[..|words| - 1] + [last];
      Spoken(words[..|words| - 1]) + if Blank(last.text) then [] else [last]
  }

  ghost predicate IsEarliest(start: real, group: seq<Assigned>) {
    && (exists i :: 0 <= i < |group| && group[i].word.start == start)
    && forall i :: 0 <= i < |group| ==> start <= group[i].word.start
  }

  ghost predicate IsLatest(end: real, group: seq<Assigned>) {
    && (exists i :: 0 <= i < |group| && group[i].word.end == end)
    && forall i :: 0 <= i < |group| ==> group[i].word.end <= end
  }

  /** The transcript row a run of words becomes. */
  ghost predicate Renders(m: Merged, sequence: nat, group: seq<Assigned>) {
    && group != []
    && m.segment.sequence == sequence && m.segment.speaker == group[0].speaker
    && IsEarliest(m.segment.start, group) && IsLatest(m.segment.end, group)
    && m.segment.text == Strip(JoinWords(group, |group|))
    && (m.hasOverlap <==> exists i :: 0 <= i < |group| && group[i].hasOverlap)
  }

  method RenderGroup(sequence: nat, group: seq<Assigned>, text: string) returns (m: Merged)
    requires group != [] && text == Strip(JoinWords(group, |group|))
    ensures Renders(m, sequence, group)
  {
    hide JoinWords, Strip;
    var start, end, overlap := group[0].word.start, group[0].word.end, group[0].hasOverlap;
    for i := 1 to |group|
      invariant IsEarliest(start, group[..i]) && IsLatest(end, group[..i])
      invariant overlap <==> exists k :: 0 <= k < i && group[k].hasOverlap
    {
      ghost var before := group[..i];
      ghost var was := (start, end);
      start := Min(start, group[i].word.start);
      end := Max(end, group[i].word.end);
      overlap := overlap || group[i].hasOverlap;
      Widened(before, group[i], was.0, was.1);
      assert group[..i + 1] == before + [group[i]];
    }
    assert group[..|group|] == group;
    m := Merged(Segment(sequence, group[0].speaker, start, end, text), overlap);
  }

  lemma Widened(group: seq<Assigned>, item: Assigned, start: real, end: real)
    requires IsEarliest(start, group) && IsLatest(end, group)
    ensures IsEarliest(Min(start, item.word.start), group + [item])
    ensures IsLatest(Max(end, item.word.end), group + [item])
  {
    var longer := group + [item];
    assert longer[|group|] == item;
    var i :| 0 <= i < |group| && group[i].word.start == start;
    var j :| 0 <= j < |group| && group[j].word.end == end;
    assert longer[i] == group[i] && longer[j] == group[j];
  }

  /** The rows one Whisper segment adds: one per run of one speaker over its spoken words, or, when it has
      none, its own text under one speaker. */
  ghost predicate Adds(v: Voices, h: Heard, sequence: nat, rows: seq<Merged>) {
    var words := Spoken(h.words);
    if words != [] then
      exists judged, groups ::
        && IsAssignment(v, InTime(words), judged) && AreRuns(groups, judged) && |rows| == |groups|
        && forall k :: 0 <= k < |groups| ==> Renders(rows[k], sequence + k, groups[k])
    else if Blank(h.text) then rows == []
    else
      && |rows| == 1
      && rows[0].segment == Segment(sequence, ChooseSpeaker(h.start, h.end, v.primary, v.tolerance), h.start, h.end, Strip(h.text))
      && (rows[0].hasOverlap <==> Simultaneous(h.start, h.end, v.regular))
  }

  method SpokenWords(words: seq<Word>) returns (spoken: seq<Word>)
    ensures spoken == Spoken(words)
  {
    spoken := [];
    for i := 0 to |words|
      invariant spoken == Spoken(words[..i])
    {
      assert words[..i + 1][..i] == words[..i];
      if !Blank(words[i].text) {
        spoken := spoken + [words[i]];
      }
    }
    assert words[..|words|] == words;
  }

  /** A run of spoken words never comes out empty. */
  lemma {:induction false} RunHasInk(group: seq<Assigned>)
    requires group != [] && !Blank(group[0].word.text)
    ensures !Blank(Strip(JoinWords(group, |group|)))
  {
    hide Strip, Blank;
    JoinKeepsInk(group, |group|);
    StripKeepsInk(JoinWords(group, |group|));
    InkOfBlank(Strip(JoinWords(group, |group|)));
    InkOfBlank(group[0].word.text);
    InkGrows(WordsOf(group), |group|);
  }

  lemma {:induction false} InkGrows(words: seq<Word>, n: nat)
    requires 1 <= n <= |words|
    ensures |InkOfWords(words, n)| >= |Ink(words[0].text)|
  {
    hide Ink;
    if n > 1 {
      InkGrows(words, n - 1);
    }
  }

  ghost predicate AllSpoken(judged: seq<Assigned>) {
    forall i :: 0 <= i < |judged| ==> !Blank(judged[i].word.text) && ValidWord(judged[i].word)
  }

  lemma {:induction false} RunsAreSpoken(groups: seq<seq<Assigned>>, k: nat)
    requires k < |groups| && AllSpoken(Flatten(groups))
    ensures AllSpoken(groups[k])
  {
    hide ValidWord, Blank;
    var n := |groups| - 1;
    var front, last := Flatten(groups[..n]), groups[n];
    assert forall i :: 0 <= i < |front| ==> Flatten(groups)[i] == front[i];
    assert forall i :: 0 <= i < |last| ==> Flatten(groups)[|front| + i] == last[i];
    if k < n {
      assert AllSpoken(front);
      RunsAreSpoken(groups[..n], k);
    }
  }

  lemma {:induction false} AssignmentIsSpoken(v: Voices, words: seq<Word>, judged: seq<Assigned>)
    requires IsAssignment(v, InTime(Spoken(words)), judged)
    requires forall i :: 0 <= i < |words| ==> ValidWord(words[i])
    ensures AllSpoken(judged)
  {
    hide ValidWord, Blank, Judged, Head, InTime;
    var _ := InTimeArranges(Spoken(words));
    SameItems(InTime(Spoken(words)), Spoken(words));
    forall i | 0 <= i < |judged|
      ensures !Blank(judged[i].word.text) && ValidWord(judged[i].word)
    {
      assert judged[i] == ByHead(v, InTime(Spoken(words)), i);
      assert judged[i].word in InTime(Spoken(words));
    }
  }

  method MergeSegment(v: Voices, h: Heard, sequence: nat) returns (rows: seq<Merged>)
    requires ValidHeard(h)
    ensures Adds(v, h, sequence, rows)
  {
    hide IsAssignment, AreRuns, Simultaneous, ChooseSpeaker, InTime, Spoken, AllSpoken, Renders, Blank, Strip, JoinWords, ValidWord;
    rows := [];
    var words := SpokenWords(h.words);
    if words != [] {
      SpokenAreValid(h.words);
      var judged := AssignWords(v, words);
      AssignmentIsSpoken(v, h.words, judged);
      var groups := GroupBySpeaker(judged);
      for k := 0 to |groups|
        invariant |rows| == k && forall j :: 0 <= j < k ==> Renders(rows[j], sequence + j, groups[j])
      {
        RunIsSpoken(groups, judged, k);
        RunHasInk(groups[k]);
        var joined := JoinWordText(groups[k]);
        var text := Strip(joined);
        BlankOfEmpty();
        if text != "" {
          var row := RenderGroup(sequence + |rows|, groups[k], text);
          rows := rows + [row];
        }
      }
      return;
    }
    var text := Strip(h.text);
    StripKeepsInk(h.text);
    if text == "" {
      return;
    }
    var overlap := HasSimultaneousSpeech(h.start, h.end, v.regular);
    rows := [Merged(Segment(sequence, ChooseSpeaker(h.start, h.end, v.primary, v.tolerance), h.start, h.end, text), overlap)];
  }

  lemma BlankOfEmpty()
    ensures Blank("")
  {
  }

  lemma SpokenAreValid(words: seq<Word>)
    requires forall i :: 0 <= i < |words| ==> ValidWord(words[i])
    ensures forall i :: 0 <= i < |Spoken(words)| ==> ValidWord(Spoken(words)[i])
  {
    hide ValidWord;
    forall i | 0 <= i < |Spoken(words)|
      ensures ValidWord(Spoken(words)[i])
    {
      assert Spoken(words)[i] in words;
    }
  }

  lemma RunIsSpoken(groups: seq<seq<Assigned>>, judged: seq<Assigned>, k: nat)
    requires AreRuns(groups, judged) && AllSpoken(judged) && k < |groups|
    ensures groups[k] != [] && !Blank(groups[k][0].word.text) && AllSpoken(groups[k])
  {
    hide Blank, ValidWord, Changes;
    RunsAreSpoken(groups, k);
    assert OneSpeaker(groups[k]);
  }

  // ----- the whole transcript -----

  function FlatRows(blocks: seq<seq<Merged>>, n: nat): seq<Merged>
    requires n <= |blocks|
  {
    if n == 0 then [] else FlatRows(blocks, n - 1) + blocks[n - 1]
  }

  /** The blocks are what each Whisper segment adds behind the rows before it. */
  ghost predicate AreBlocks(v: Voices, ordered: seq<Heard>, blocks: seq<seq<Merged>>) {
    |blocks| <= |ordered| && forall k :: 0 <= k < |blocks| ==> Adds(v, ordered[k], |FlatRows(blocks, k)|, blocks[k])
  }

  /** The rows are the Whisper segments' blocks, one after the other. */
  ghost predicate IsMerge(v: Voices, ordered: seq<Heard>, rows: seq<Merged>) {
    exists blocks :: AreBlocks(v, ordered, blocks) && |blocks| == |ordered| && rows == FlatRows(blocks, |blocks|)
  }

  lemma {:induction false} NextBlock(v: Voices, ordered: seq<Heard>, blocks: seq<seq<Merged>>, block: seq<Merged>)
    requires AreBlocks(v, ordered, blocks) && |blocks| < |ordered|
    requires Adds(v, ordered[|blocks|], |FlatRows(blocks, |blocks|)|, block)
    ensures AreBlocks(v, ordered, blocks + [block])
    ensures FlatRows(blocks + [block], |blocks| + 1) == FlatRows(blocks, |blocks|) + block
  {
    hide Adds, FlatRows;
    var longer := blocks + [block];
    FlatRowsMore(blocks, block);
    forall k | 0 <= k < |longer|
      ensures Adds(v, ordered[k], |FlatRows(longer, k)|, longer[k])
    {
      FlatRowsPrefix(blocks, longer, k);
    }
  }

  lemma FlatRowsMore(blocks: seq<seq<Merged>>, block: seq<Merged>)
    ensures FlatRows(blocks + [block], |blocks| + 1) == FlatRows(blocks, |blocks|) + block
  {
    FlatRowsPrefix(blocks, blocks + [block], |blocks|);
  }

  lemma {:induction false} FlatRowsPrefix(a: seq<seq<Merged>>, b: seq<seq<Merged>>, n: nat)
    requires n <= |a| <= |b| && a == b[..|a|]
    ensures FlatRows(a, n) == FlatRows(b, n)
  {
    if n > 0 {
      FlatRowsPrefix(a, b, n - 1);
    }
  }

  method MergeTranscript(segments: seq<Heard>, exclusive: seq<Turn>, regular: seq<Turn>, tolerance: real, alnum: char -> bool)
    returns (rows: seq<Merged>)
    requires forall k :: 0 <= k < |segments| ==> ValidHeard(segments[k])
    ensures IsMerge(Prepare(exclusive, regular, tolerance, alnum), HeardInTime(segments), rows)
  {
    hide Adds, ValidHeard, HeardInTime, Prepare, FlatRows, AreBlocks;
    var v := Prepare(exclusive, regular, tolerance, alnum);
    var ordered := HeardInTime(segments);
    var _ := HeardInTimeArranges(segments);
    SameItems(ordered, segments);
    rows := [];
    ghost var blocks: seq<seq<Merged>> := [];
    NoBlocks(v, ordered);
    for k := 0 to |ordered|
      invariant |blocks| == k && rows == FlatRows(blocks, k) && AreBlocks(v, ordered, blocks)
    {
      assert ordered[k] in ordered;
      var block := MergeSegment(v, ordered[k], |rows|);
      NextBlock(v, ordered, blocks, block);
      blocks := blocks + [block];
      rows := rows + block;
    }
  }

  lemma NoBlocks(v: Voices, ordered: seq<Heard>)
    ensures AreBlocks(v, ordered, []) && FlatRows([], 0) == []
  {
  }
}
