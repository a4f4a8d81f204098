/** What merging guarantees: nothing heard is lost, repeated or reordered, and the turns' order does not matter. */
module MergeLaws {
  import opened Prelude
  import opened Text
  import opened Sentences
  import opened Sorting
  import opened Speakers
  import opened Merge

  // ----- numbering -----

  lemma AddsNumbers(v: Voices, h: Heard, sequence: nat, rows: seq<Merged>, k: nat)
    requires Adds(v, h, sequence, rows) && k < |rows|
    ensures rows[k].segment.sequence == sequence + k
  {
    hide IsAssignment, AreRuns, IsEarliest, IsLatest, JoinWords, Strip, ChooseSpeaker, Simultaneous, Spoken, InTime, Blank;
    if Spoken(h.words) != [] {
      var judged: seq<Assigned>, groups: seq<seq<Assigned>> :|
        && IsAssignment(v, InTime(Spoken(h.words)), judged) && AreRuns(groups, judged) && |rows| == |groups|
        && forall j :: 0 <= j < |groups| ==> Renders(rows[j], sequence + j, groups[j]);
      assert Renders(rows[k], sequence + k, groups[k]);
    }
  }

  lemma BlocksOf(v: Voices, ordered: seq<Heard>, rows: seq<Merged>) returns (blocks: seq<seq<Merged>>)
    requires IsMerge(v, ordered, rows)
    ensures AreBlocks(v, ordered, blocks) && |blocks| == |ordered| && rows == FlatRows(blocks, |blocks|)
  {
    hide AreBlocks;
    blocks :| AreBlocks(v, ordered, blocks) && |blocks| == |ordered| && rows == FlatRows(blocks, |blocks|);
  }

  lemma {:induction false} BlocksAreNumbered(v: Voices, ordered: seq<Heard>, blocks: seq<seq<Merged>>, n: nat, i: nat)
    requires AreBlocks(v, ordered, blocks) && n <= |blocks| && i < |FlatRows(blocks, n)|
    ensures FlatRows(blocks, n)[i].segment.sequence == i
  {
    hide Adds;
    var before := FlatRows(blocks, n - 1);
    if i < |before| {
      BlocksAreNumbered(v, ordered, blocks, n - 1, i);
    } else {
      AddsNumbers(v, ordered[n - 1], |before|, blocks[n - 1], i - |before|);
    }
  }

  /** The rows are numbered 0, 1, 2, ... */
  lemma RowsAreNumbered(v: Voices, ordered: seq<Heard>, rows: seq<Merged>, i: nat)
    requires IsMerge(v, ordered, rows) && i < |rows|
    ensures rows[i].segment.sequence == i
  {
    var blocks := BlocksOf(v, ordered, rows);
    BlocksAreNumbered(v, ordered, blocks, |blocks|, i);
  }

  // ----- validity -----

  lemma {:induction false} BestIsATurn(tier: Tier, start: real, end: real, turns: seq<Turn>, n: nat)
    requires n <= |turns|
    ensures var best := Best(tier, start, end, turns, n); best.Some? ==> best.value in turns
  {
    BestIsLeast(tier, start, end, turns, n);
  }

  lemma ChosenIsNamed(start: real, end: real, turns: seq<Turn>, tolerance: real)
    requires ValidTurns(turns)
    ensures !Blank(ChooseSpeaker(start, end, turns, tolerance))
  {
    hide Best, ValidTurn;
    BestIsATurn(Overlapping, start, end, turns, |turns|);
    BestIsATurn(Inside, start, end, turns, |turns|);
    BestIsATurn(Nearest, start, end, turns, |turns|);
    forall t | t in turns
      ensures ValidTurn(t) && !Blank(t.speaker)
    {
      TurnIsNamed(turns, t);
    }
    assert !IsSpace(UNKNOWN_SPEAKER[0]);
  }

  lemma TurnIsNamed(turns: seq<Turn>, t: Turn)
    requires ValidTurns(turns) && t in turns
    ensures ValidTurn(t) && !Blank(t.speaker)
  {
  }

  lemma {:induction false} RenderedIsValid(v: Voices, words: seq<Word>, judged: seq<Assigned>, groups: seq<seq<Assigned>>, k: nat,
                        m: Merged, sequence: nat)
    requires ValidVoices(v) && IsAssignment(v, InTime(Spoken(words)), judged)
    requires forall i :: 0 <= i < |words| ==> ValidWord(words[i])
    requires AreRuns(groups, judged) && k < |groups| && Renders(m, sequence, groups[k])
    ensures ValidSegment(m.segment)
  {
    hide Blank, JoinWords, Strip, ChooseSpeaker, Simultaneous, InTime, Spoken, AreRuns, ByHead, IsAssignment, ValidWord, AllSpoken;
    AssignmentIsSpoken(v, words, judged);
    RunIsSpoken(groups, judged, k);
    RunHasInk(groups[k]);
    RunIsNamed(v, words, judged, groups, k);
    GroupTimes(groups[k], m.segment.start, m.segment.end);
  }

  lemma GroupTimes(group: seq<Assigned>, start: real, end: real)
    requires AllSpoken(group) && IsEarliest(start, group) && IsLatest(end, group)
    ensures 0.0 <= start <= end
  {
    hide Blank;
    var i :| 0 <= i < |group| && group[i].word.start == start;
  }

  ghost predicate AllNamed(judged: seq<Assigned>) {
    forall i :: 0 <= i < |judged| ==> !Blank(judged[i].speaker)
  }

  lemma {:induction false} RunsAreNamed(groups: seq<seq<Assigned>>, k: nat)
    requires k < |groups| && AllNamed(Flatten(groups))
    ensures AllNamed(groups[k])
  {
    hide Blank;
    var n := |groups| - 1;
    var front, last := Flatten(groups[..n]), groups[n];
    assert forall i :: 0 <= i < |front| ==> Flatten(groups)[i] == front[i];
    assert forall i :: 0 <= i < |last| ==> Flatten(groups)[|front| + i] == last[i];
    if k < n {
      assert AllNamed(front);
      RunsAreNamed(groups[..n], k);
    }
  }

  lemma RunIsNamed(v: Voices, words: seq<Word>, judged: seq<Assigned>, groups: seq<seq<Assigned>>, k: nat)
    requires ValidVoices(v) && IsAssignment(v, InTime(Spoken(words)), judged) && AreRuns(groups, judged) && k < |groups|
    ensures groups[k] != [] && !Blank(groups[k][0].speaker)
  {
    hide Blank, ChooseSpeaker, Simultaneous, InTime, Spoken, Head, Changes;
    forall i | 0 <= i < |judged|
      ensures !Blank(judged[i].speaker)
    {
      var w := InTime(Spoken(words))[Head(v, InTime(Spoken(words)), i)];
      assert judged[i] == ByHead(v, InTime(Spoken(words)), i);
      ChosenIsNamed(w.start, w.end, v.primary, v.tolerance);
    }
    assert AllNamed(judged);
    RunsAreNamed(groups, k);
    assert OneSpeaker(groups[k]);
  }

  /** Every row meets the checks a transcript row is built with, so it can be grouped into sentences. */
  lemma AddsValid(v: Voices, h: Heard, sequence: nat, rows: seq<Merged>, k: nat)
    requires ValidVoices(v) && ValidHeard(h) && Adds(v, h, sequence, rows) && k < |rows|
    ensures ValidSegment(rows[k].segment)
  {
    hide Blank, IsAssignment, AreRuns, IsEarliest, IsLatest, JoinWords, Strip, ChooseSpeaker, Simultaneous, InTime, Spoken,
         Renders, ValidWord;
    if Spoken(h.words) != [] {
      var judged: seq<Assigned>, groups: seq<seq<Assigned>> :|
        && IsAssignment(v, InTime(Spoken(h.words)), judged) && AreRuns(groups, judged) && |rows| == |groups|
        && forall j :: 0 <= j < |groups| ==> Renders(rows[j], sequence + j, groups[j]);
      RenderedIsValid(v, h.words, judged, groups, k, rows[k], sequence + k);
    } else {
      ChosenIsNamed(h.start, h.end, v.primary, v.tolerance);
      StrippedHasInk(h.text);
    }
  }

  lemma StrippedHasInk(text: string)
    ensures Blank(Strip(text)) <==> Blank(text)
  {
    hide Strip, Blank;
    StripKeepsInk(text);
    InkOfBlank(text);
    InkOfBlank(Strip(text));
  }

  // ----- neighbours -----

  /** Two rows in a row from one Whisper segment are two speakers. */
  lemma NeighboursDiffer(v: Voices, h: Heard, sequence: nat, rows: seq<Merged>, k: nat)
    requires Adds(v, h, sequence, rows) && 0 < k < |rows|
    ensures rows[k - 1].segment.speaker != rows[k].segment.speaker
  {
    hide IsAssignment, Flatten, OneSpeaker, IsEarliest, IsLatest, JoinWords, Strip, ChooseSpeaker, Simultaneous, InTime, Spoken, Blank;
    if Spoken(h.words) != [] {
      var judged: seq<Assigned>, groups: seq<seq<Assigned>> :|
        && IsAssignment(v, InTime(Spoken(h.words)), judged) && AreRuns(groups, judged) && |rows| == |groups|
        && forall j :: 0 <= j < |groups| ==> Renders(rows[j], sequence + j, groups[j]);
      assert Renders(rows[k], sequence + k, groups[k]) && Renders(rows[k - 1], sequence + (k - 1), groups[k - 1]);
      assert Changes(groups, k);
    }
  }

  // ----- conservation -----

  /** Each spoken word goes to exactly one row: the rows' runs, one after the other, are the segment's spoken
      words in time order. */
  lemma WordsLandOnce(v: Voices, h: Heard, sequence: nat, rows: seq<Merged>) returns (groups: seq<seq<Assigned>>)
    requires Adds(v, h, sequence, rows) && Spoken(h.words) != []
    ensures |groups| == |rows| && forall k :: 0 <= k < |rows| ==> Renders(rows[k], sequence + k, groups[k])
    ensures WordsOf(Flatten(groups)) == InTime(Spoken(h.words))
    ensures multiset(WordsOf(Flatten(groups))) == multiset(Spoken(h.words))
  {
    hide Spoken, InTime, Renders, OneSpeaker, Changes, Judged, Head;
    var judged: seq<Assigned>, runs: seq<seq<Assigned>> :|
      && IsAssignment(v, InTime(Spoken(h.words)), judged) && AreRuns(runs, judged) && |rows| == |runs|
      && forall j :: 0 <= j < |runs| ==> Renders(rows[j], sequence + j, runs[j]);
    groups := runs;
    var _ := InTimeArranges(Spoken(h.words));
    forall i | 0 <= i < |judged|
      ensures judged[i].word == InTime(Spoken(h.words))[i]
    {
      assert judged[i] == ByHead(v, InTime(Spoken(h.words)), i);
    }
    assert WordsOf(judged) == InTime(Spoken(h.words));
  }

  function InkOfRows(rows: seq<Merged>, n: nat): string
    requires n <= |rows|
  {
    if n == 0 then "" else InkOfRows(rows, n - 1) + Ink(rows[n - 1].segment.text)
  }

  /** The characters a Whisper segment contributes: its spoken words', or its own text's when it has none. */
  function InkHeard(h: Heard): string {
    var spoken := InTime(Spoken(h.words));
    if Spoken(h.words) != [] then InkOfWords(spoken, |spoken|) else Ink(h.text)
  }

  function AllInkHeard(ordered: seq<Heard>, n: nat): string
    requires n <= |ordered|
  {
    if n == 0 then "" else AllInkHeard(ordered, n - 1) + InkHeard(ordered[n - 1])
  }

  lemma RenderKeepsInk(m: Merged, sequence: nat, group: seq<Assigned>)
    requires Renders(m, sequence, group)
    ensures Ink(m.segment.text) == InkOfWords(WordsOf(group), |group|)
  {
    hide Strip, Ink, JoinWords;
    StripKeepsInk(JoinWords(group, |group|));
    JoinKeepsInk(group, |group|);
  }

  lemma FlatStep(groups: seq<seq<Assigned>>, n: nat)
    requires 0 < n <= |groups|
    ensures Flatten(groups[..n]) == Flatten(groups[..n - 1]) + groups[n - 1]
    ensures var words := WordsOf(Flatten(groups[..n])); var front := WordsOf(Flatten(groups[..n - 1]));
            InkOfWords(words, |words|) == InkOfWords(front, |front|) + InkOfWords(WordsOf(groups[n - 1]), |groups[n - 1]|)
  {
    hide InkOfWords;
    var front := Flatten(groups[..n - 1]);
    assert groups[..n][..n - 1] == groups[..n - 1];
    assert WordsOf(front + groups[n - 1]) == WordsOf(front) + WordsOf(groups[n - 1]);
    InkOfWordsConcat(WordsOf(front), WordsOf(groups[n - 1]), |groups[n - 1]|);
  }

  lemma {:induction false} RunsKeepInk(rows: seq<Merged>, groups: seq<seq<Assigned>>, sequence: nat, n: nat)
    requires |rows| == |groups| && n <= |rows|
    requires forall k :: 0 <= k < |rows| ==> Renders(rows[k], sequence + k, groups[k])
    ensures var words := WordsOf(Flatten(groups[..n])); InkOfRows(rows, n) == InkOfWords(words, |words|)
  {
    hide Renders, Ink, Flatten;
    if n == 0 {
      NoRunsNoInk(groups);
    } else {
      RunsKeepInk(rows, groups, sequence, n - 1);
      RenderKeepsInk(rows[n - 1], sequence + (n - 1), groups[n - 1]);
      FlatStep(groups, n);
    }
  }

  lemma NoRunsNoInk(groups: seq<seq<Assigned>>)
    ensures WordsOf(Flatten(groups[..0])) == []
  {
  }

  lemma AddsKeepsInk(v: Voices, h: Heard, sequence: nat, rows: seq<Merged>)
    requires Adds(v, h, sequence, rows)
    ensures InkOfRows(rows, |rows|) == InkHeard(h)
  {
    hide IsAssignment, AreRuns, Renders, Strip, Ink, ChooseSpeaker, Simultaneous, InTime, Spoken, Flatten, Blank, InkOfWords;
    if Spoken(h.words) != [] {
      var groups := WordsLandOnce(v, h, sequence, rows);
      RunsKeepInk(rows, groups, sequence, |rows|);
      assert groups[..|rows|] == groups;
    } else {
      StripKeepsInk(h.text);
      InkOfBlank(h.text);
      if !Blank(h.text) {
        InkOfOneRow(rows);
      }
    }
  }

  lemma InkOfOneRow(rows: seq<Merged>)
    requires |rows| == 1
    ensures InkOfRows(rows, 1) == Ink(rows[0].segment.text)
  {
    hide Ink;
    assert InkOfRows(rows, 0) == "";
  }

  lemma {:induction false} InkOfRowsConcat(a: seq<Merged>, b: seq<Merged>, n: nat)
    requires n <= |b|
    ensures InkOfRows(a + b, |a| + n) == InkOfRows(a, |a|) + InkOfRows(b, n)
  {
    hide Ink;
    if n == 0 {
      InkOfRowsPrefix(a, b, |a|);
    } else {
      InkOfRowsConcat(a, b, n - 1);
    }
  }

  lemma {:induction false} InkOfRowsPrefix(a: seq<Merged>, b: seq<Merged>, n: nat)
    requires n <= |a|
    ensures InkOfRows(a + b, n) == InkOfRows(a, n)
  {
    hide Ink;
    if n > 0 {
      InkOfRowsPrefix(a, b, n - 1);
    }
  }

  lemma NextBlockKeepsInk(before: seq<Merged>, block: seq<Merged>)
    ensures InkOfRows(before + block, |before + block|) == InkOfRows(before, |before|) + InkOfRows(block, |block|)
  {
    hide InkOfRows;
    InkOfRowsConcat(before, block, |block|);
  }

  lemma {:induction false} BlocksKeepInk(v: Voices, ordered: seq<Heard>, blocks: seq<seq<Merged>>, n: nat)
    requires AreBlocks(v, ordered, blocks) && n <= |blocks|
    ensures InkOfRows(FlatRows(blocks, n), |FlatRows(blocks, n)|) == AllInkHeard(ordered, n)
  {
    hide Adds, InkHeard, InkOfRows;
    if n == 0 {
      NoRowsNoInk();
    } else {
      BlocksKeepInk(v, ordered, blocks, n - 1);
      var before := FlatRows(blocks, n - 1);
      AddsKeepsInk(v, ordered[n - 1], |before|, blocks[n - 1]);
      NextBlockKeepsInk(before, blocks[n - 1]);
    }
  }

  lemma NoRowsNoInk()
    ensures InkOfRows([], 0) == ""
  {
  }

  /** The transcript's non-space characters are exactly those heard, in time order. */
  lemma MergeKeepsInk(v: Voices, ordered: seq<Heard>, rows: seq<Merged>)
    requires IsMerge(v, ordered, rows)
    ensures InkOfRows(rows, |rows|) == AllInkHeard(ordered, |ordered|)
  {
    hide AreBlocks, InkHeard, InkOfRows;
    var blocks := BlocksOf(v, ordered, rows);
    BlocksKeepInk(v, ordered, blocks, |blocks|);
  }

  // ----- the result is determined -----

  lemma RenderIsUnique(a: Merged, b: Merged, sequence: nat, group: seq<Assigned>)
    requires Renders(a, sequence, group) && Renders(b, sequence, group)
    ensures a == b
  {
    hide JoinWords, Strip;
  }

  lemma AddsIsUnique(v: Voices, h: Heard, sequence: nat, a: seq<Merged>, b: seq<Merged>)
    requires Adds(v, h, sequence, a) && Adds(v, h, sequence, b)
    ensures a == b
  {
    hide ByHead, AreRuns, Renders, Strip, Blank, ChooseSpeaker, Simultaneous, Spoken, InTime;
    if Spoken(h.words) != [] {
      var words := InTime(Spoken(h.words));
      var judgedA: seq<Assigned>, groupsA: seq<seq<Assigned>> :|
        && IsAssignment(v, words, judgedA) && AreRuns(groupsA, judgedA) && |a| == |groupsA|
        && forall j :: 0 <= j < |groupsA| ==> Renders(a[j], sequence + j, groupsA[j]);
      var judgedB: seq<Assigned>, groupsB: seq<seq<Assigned>> :|
        && IsAssignment(v, words, judgedB) && AreRuns(groupsB, judgedB) && |b| == |groupsB|
        && forall j :: 0 <= j < |groupsB| ==> Renders(b[j], sequence + j, groupsB[j]);
      assert judgedA == judgedB;
      RunsAreUnique(groupsA, groupsB, judgedA);
      forall k | 0 <= k < |a|
        ensures a[k] == b[k]
      {
        RenderIsUnique(a[k], b[k], sequence + k, groupsA[k]);
      }
    }
  }

  lemma {:induction false} BlocksAreUnique(v: Voices, ordered: seq<Heard>, a: seq<seq<Merged>>, b: seq<seq<Merged>>, n: nat)
    requires AreBlocks(v, ordered, a) && AreBlocks(v, ordered, b) && n <= |a| && n <= |b|
    ensures FlatRows(a, n) == FlatRows(b, n)
  {
    hide Adds;
    if n > 0 {
      BlocksAreUnique(v, ordered, a, b, n - 1);
      AddsIsUnique(v, ordered[n - 1], |FlatRows(a, n - 1)|, a[n - 1], b[n - 1]);
    }
  }

  lemma PrepareIgnoresOrder(exclusive: seq<Turn>, regular: seq<Turn>, exclusive': seq<Turn>, regular': seq<Turn>,
                            tolerance: real, alnum: char -> bool)
    requires multiset(exclusive) == multiset(exclusive') && multiset(regular) == multiset(regular')
    ensures Prepare(exclusive, regular, tolerance, alnum) == Prepare(exclusive', regular', tolerance, alnum)
  {
    SameSize(exclusive, exclusive');
    TurnLeOrders(exclusive);
    TurnLeOrders(regular);
    SortIgnoresOrder(TurnLe, exclusive, exclusive');
    SortIgnoresOrder(TurnLe, regular, regular');
  }

  /** However the diarization lists its turns, the same words give the same transcript. */
  lemma MergeIgnoresTurnOrder(exclusive: seq<Turn>, regular: seq<Turn>, exclusive': seq<Turn>, regular': seq<Turn>,
                              tolerance: real, alnum: char -> bool, ordered: seq<Heard>,
                              rows: seq<Merged>, rows': seq<Merged>)
    requires multiset(exclusive) == multiset(exclusive') && multiset(regular) == multiset(regular')
    requires IsMerge(Prepare(exclusive, regular, tolerance, alnum), ordered, rows)
    requires IsMerge(Prepare(exclusive', regular', tolerance, alnum), ordered, rows')
    ensures rows == rows'
  {
    hide AreBlocks, Prepare;
    PrepareIgnoresOrder(exclusive, regular, exclusive', regular', tolerance, alnum);
    var v := Prepare(exclusive, regular, tolerance, alnum);
    var blocks := BlocksOf(v, ordered, rows);
    var blocks' := BlocksOf(v, ordered, rows');
    BlocksAreUnique(v, ordered, blocks, blocks', |blocks|);
  }

  // ----- the same over the whole transcript -----

  /** The block a row comes from, and its place in it. */
  lemma {:induction false} RowInBlock(blocks: seq<seq<Merged>>, n: nat, i: nat) returns (k: nat, place: nat)
    requires n <= |blocks| && i < |FlatRows(blocks, n)|
    ensures k < n && place < |blocks[k]| && i == |FlatRows(blocks, k)| + place && FlatRows(blocks, n)[i] == blocks[k][place]
  {
    var before := FlatRows(blocks, n - 1);
    if i < |before| {
      k, place := RowInBlock(blocks, n - 1, i);
    } else {
      k, place := n - 1, i - |before|;
    }
  }

  lemma {:induction false} BlockInRows(blocks: seq<seq<Merged>>, n: nat, k: nat, place: nat)
    requires k < n <= |blocks| && place < |blocks[k]|
    ensures |FlatRows(blocks, k)| + place < |FlatRows(blocks, n)|
    ensures FlatRows(blocks, n)[|FlatRows(blocks, k)| + place] == blocks[k][place]
  {
    if k < n - 1 {
      BlockInRows(blocks, n - 1, k, place);
    }
  }

  /** Every row of a merged transcript meets the checks a transcript row is built with. */
  lemma RowsAreValid(v: Voices, ordered: seq<Heard>, rows: seq<Merged>, i: nat)
    requires ValidVoices(v) && (forall k :: 0 <= k < |ordered| ==> ValidHeard(ordered[k]))
    requires IsMerge(v, ordered, rows) && i < |rows|
    ensures ValidSegment(rows[i].segment)
  {
    hide Adds, ValidHeard, ValidSegment, ValidVoices, FlatRows;
    var blocks := BlocksOf(v, ordered, rows);
    var k, place := RowInBlock(blocks, |blocks|, i);
    AddsValid(v, ordered[k], |FlatRows(blocks, k)|, blocks[k], place);
  }

  /** The rows at this place of the block and before it are the block's, and two speakers'. */
  predicate NeighboursIn(blocks: seq<seq<Merged>>, rows: seq<Merged>, k: nat, place: nat)
    requires k < |blocks| && 0 < place < |blocks[k]|
  {
    var at := |FlatRows(blocks, k)| + place;
    && at < |rows| && rows[at - 1] == blocks[k][place - 1] && rows[at] == blocks[k][place]
    && rows[at - 1].segment.speaker != rows[at].segment.speaker
  }

  /** The rows split into one block for each Whisper segment, and within a block neighbours are two speakers. */
  lemma RowNeighboursDiffer(v: Voices, ordered: seq<Heard>, rows: seq<Merged>) returns (blocks: seq<seq<Merged>>)
    requires IsMerge(v, ordered, rows)
    ensures AreBlocks(v, ordered, blocks) && |blocks| == |ordered| && rows == FlatRows(blocks, |blocks|)
    ensures forall k, place :: 0 <= k < |blocks| && 0 < place < |blocks[k]| ==> NeighboursIn(blocks, rows, k, place)
  {
    hide Adds, FlatRows;
    blocks := BlocksOf(v, ordered, rows);
    forall k, place | 0 <= k < |blocks| && 0 < place < |blocks[k]|
      ensures NeighboursIn(blocks, rows, k, place)
    {
      BlockInRows(blocks, |blocks|, k, place);
      BlockInRows(blocks, |blocks|, k, place - 1);
      NeighboursDiffer(v, ordered[k], |FlatRows(blocks, k)|, blocks[k], place);
    }
  }

  /** The spoken words of the first n segments, each segment's in time order. */
  function WordsHeard(ordered: seq<Heard>, n: nat): seq<Word>
    requires n <= |ordered|
  {
    if n == 0 then [] else WordsHeard(ordered, n - 1) + InTime(Spoken(ordered[n - 1].words))
  }

  /** Each row's run of words; a row that repeats a wordless segment's text has none. */
  ghost predicate AreRunsOf(rows: seq<Merged>, runs: seq<seq<Assigned>>) {
    |runs| == |rows| && forall i :: 0 <= i < |rows| ==> runs[i] == [] || Renders(rows[i], i, runs[i])
  }

  lemma {:induction false} NoWords(n: nat) returns (runs: seq<seq<Assigned>>)
    ensures |runs| == n && Flatten(runs) == [] && forall i :: 0 <= i < n ==> runs[i] == []
  {
    if n == 0 {
      runs := [];
    } else {
      var fewer := NoWords(n - 1);
      runs := fewer + [[]];
      FlattenMore(fewer, []);
    }
  }

  lemma BlockWords(v: Voices, h: Heard, sequence: nat, block: seq<Merged>) returns (runs: seq<seq<Assigned>>)
    requires Adds(v, h, sequence, block)
    ensures |runs| == |block| && forall i :: 0 <= i < |block| ==> runs[i] == [] || Renders(block[i], sequence + i, runs[i])
    ensures WordsOf(Flatten(runs)) == InTime(Spoken(h.words))
  {
    hide Adds, Renders, Spoken, InTime, Flatten;
    if Spoken(h.words) != [] {
      runs := WordsLandOnce(v, h, sequence, block);
    } else {
      runs := NoWords(|block|);
      NothingInTime();
    }
  }

  lemma NothingInTime()
    ensures InTime([]) == []
  {
    assert Number<Word>([]) == [];
  }

  lemma RunsGoOn(rows: seq<Merged>, runs: seq<seq<Assigned>>, block: seq<Merged>, more: seq<seq<Assigned>>)
    requires AreRunsOf(rows, runs) && |more| == |block|
    requires forall i :: 0 <= i < |block| ==> more[i] == [] || Renders(block[i], |rows| + i, more[i])
    ensures AreRunsOf(rows + block, runs + more)
    ensures WordsOf(Flatten(runs + more)) == WordsOf(Flatten(runs)) + WordsOf(Flatten(more))
  {
    hide Renders, Flatten;
    FlattenConcat(runs, more);
  }

  lemma {:induction false} BlocksWords(v: Voices, ordered: seq<Heard>, blocks: seq<seq<Merged>>, n: nat)
    returns (runs: seq<seq<Assigned>>)
    requires AreBlocks(v, ordered, blocks) && n <= |blocks|
    ensures AreRunsOf(FlatRows(blocks, n), runs) && WordsOf(Flatten(runs)) == WordsHeard(ordered, n)
  {
    hide Adds, InTime, Spoken, Flatten;
    if n == 0 {
      runs := [];
      FlattenNone<Assigned>();
    } else {
      var before := BlocksWords(v, ordered, blocks, n - 1);
      var rows := FlatRows(blocks, n - 1);
      var more := BlockWords(v, ordered[n - 1], |rows|, blocks[n - 1]);
      RunsGoOn(rows, before, blocks[n - 1], more);
      runs := before + more;
    }
  }

  /** Every spoken word of the whole transcription goes to exactly one row: the rows' runs, one after the other, are
      the spoken words of all segments in time order. */
  lemma AllWordsLandOnce(v: Voices, ordered: seq<Heard>, rows: seq<Merged>) returns (runs: seq<seq<Assigned>>)
    requires IsMerge(v, ordered, rows)
    ensures AreRunsOf(rows, runs) && WordsOf(Flatten(runs)) == WordsHeard(ordered, |ordered|)
  {
    hide AreBlocks, Flatten, AreRunsOf;
    var blocks := BlocksOf(v, ordered, rows);
    runs := BlocksWords(v, ordered, blocks, |blocks|);
  }
}
