/** Cutting a transcript, or a day's digests, into requests of bounded size (analysis.py, daily_summary.py). */
module Chunking {
  import opened Prelude
  import opened Text

  const MIN_CHUNK_CHARS := 100

  /** A transcript segment and the metadata line printed above each of its parts. */
  datatype Labelled = Labelled(prefix: string, text: string)

  // ----- parts of one segment -----

  /** The text in pieces of room characters, the last one possibly shorter; no text is one empty piece. */
  function Parts(text: string, room: nat): (parts: seq<string>)
    requires room > 0
    ensures parts != []
    ensures forall i :: 0 <= i < |parts| ==> |parts[i]| <= room
    ensures forall i :: 0 <= i < |parts| - 1 ==> |parts[i]| == room
    decreases |text|
  {
    if |text| <= room then [text] else [text[..room]] + Parts(text[room..], room)
  }

  /** Nothing of a segment's text is lost, repeated or moved. */
  lemma {:induction false} PartsRebuildText(text: string, room: nat)
    requires room > 0
    ensures Flatten(Parts(text, room)) == text
    decreases |text|
  {
    if |text| <= room {
      FlattenHead(text, []);
    } else {
      PartsRebuildText(text[room..], room);
      FlattenHead(text[..room], Parts(text[room..], room));
      assert text == text[..room] + text[room..];
    }
  }

  function Room(prefix: string, maxChars: int): int {
    maxChars - |prefix| - 1
  }

  function Rendered(prefix: string, part: string): string {
    prefix + part + "\n"
  }

  function RenderAll(prefix: string, parts: seq<string>): (lines: seq<string>)
    ensures |lines| == |parts| && forall i :: 0 <= i < |lines| ==> lines[i] == Rendered(prefix, parts[i])
  {
    seq(|parts|, i requires 0 <= i < |parts| => Rendered(prefix, parts[i]))
  }

  /** Everything there is to send: each part of each segment under its segment's metadata. */
  function Lines(segments: seq<Labelled>, maxChars: int): seq<string>
    requires forall i :: 0 <= i < |segments| ==> Room(segments[i].prefix, maxChars) > 0
  {
    if segments == [] then []
    else
      var last := segments[|segments| - 1];
      Lines(segments[..|segments| - 1], maxChars)
      + RenderAll(last.prefix, Parts(last.text, Room(last.prefix, maxChars)))
  }

  /** These lines print this segment: each is its metadata, a piece of its text and a line end, no longer than the
      limit; the pieces make up the text, and only the last one leaves room. */
  ghost predicate Prints(segment: Labelled, maxChars: int, lines: seq<string>, pieces: seq<string>) {
    && pieces != [] && |lines| == |pieces| && Flatten(pieces) == segment.text
    && (forall i :: 0 <= i < |lines| ==> lines[i] == segment.prefix + pieces[i] + "\n" && |lines[i]| <= maxChars)
    && (forall i :: 0 <= i < |lines| - 1 ==> |lines[i]| == maxChars)
  }

  lemma SegmentPrints(segment: Labelled, maxChars: int)
    requires Room(segment.prefix, maxChars) > 0
    ensures var pieces := Parts(segment.text, Room(segment.prefix, maxChars));
            Prints(segment, maxChars, RenderAll(segment.prefix, pieces), pieces)
  {
    hide Parts, Flatten;
    PartsRebuildText(segment.text, Room(segment.prefix, maxChars));
  }

  /** The lines are the segments' printed forms, one after the other. */
  lemma {:induction false} LinesPrintSegments(segments: seq<Labelled>, maxChars: int)
    returns (blocks: seq<seq<string>>, pieces: seq<seq<string>>)
    requires forall i :: 0 <= i < |segments| ==> Room(segments[i].prefix, maxChars) > 0
    ensures |blocks| == |pieces| == |segments| && Flatten(blocks) == Lines(segments, maxChars)
    ensures forall i :: 0 <= i < |segments| ==> Prints(segments[i], maxChars, blocks[i], pieces[i])
  {
    hide Flatten, Parts, Prints;
    if segments == [] {
      blocks, pieces := [], [];
      FlattenNone<string>();
    } else {
      var n := |segments| - 1;
      blocks, pieces := LinesPrintSegments(segments[..n], maxChars);
      SegmentPrints(segments[n], maxChars);
      var parts := Parts(segments[n].text, Room(segments[n].prefix, maxChars));
      FlattenMore(blocks, RenderAll(segments[n].prefix, parts));
      blocks, pieces := blocks + [RenderAll(segments[n].prefix, parts)], pieces + [parts];
    }
  }

  // ----- greedy chunks -----

  /** Consecutive groups of lines, none empty, each within the limit, each cut because one line more would not fit. */
  ghost predicate AreChunks(lines: seq<string>, maxChars: int, groups: seq<seq<string>>) {
    && Flatten(groups) == lines
    && (forall k :: 0 <= k < |groups| ==> groups[k] != [] && |Flatten(groups[k])| <= maxChars)
    && (forall k :: 0 < k < |groups| ==> CutForced(groups, k, maxChars))
  }

  ghost predicate CutForced(groups: seq<seq<string>>, k: nat, maxChars: int)
    requires 0 < k < |groups|
  {
    groups[k] != [] && |Flatten(groups[k - 1])| + |groups[k][0]| > maxChars
  }

  /** What is sent: each chunk without its trailing whitespace. */
  ghost predicate AreSent(groups: seq<seq<string>>, chunks: seq<string>) {
    |chunks| == |groups| && forall k :: 0 <= k < |groups| ==> chunks[k] == RStrip(Flatten(groups[k]))
  }

  /** The chunks finished so far, and the one still open. */
  ghost predicate Building(lines: seq<string>, maxChars: int, groups: seq<seq<string>>, open: seq<string>) {
    if open == [] then groups == [] && lines == []
    else AreChunks(lines, maxChars, groups + [open])
  }

  lemma Extend(lines: seq<string>, maxChars: int, groups: seq<seq<string>>, open: seq<string>, line: string)
    requires Building(lines, maxChars, groups, open) && |line| <= maxChars
    requires |Flatten(open)| + |line| <= maxChars
    ensures Building(lines + [line], maxChars, groups, open + [line])
  {
    FlattenMore(open, line);
    FlattenMore(groups, open);
    FlattenMore(groups, open + [line]);
    var before, after := groups + [open], groups + [open + [line]];
    if open == [] {
      assert lines + [line] == open + [line];
    } else {
      assert Flatten(groups) + (open + [line]) == (Flatten(groups) + open) + [line];
      forall k | 0 < k < |after|
        ensures CutForced(after, k, maxChars)
      {
        assert CutForced(before, k, maxChars);
      }
    }
  }

  lemma Cut(lines: seq<string>, maxChars: int, groups: seq<seq<string>>, open: seq<string>, line: string)
    requires Building(lines, maxChars, groups, open) && open != [] && |line| <= maxChars
    requires |Flatten(open)| + |line| > maxChars
    ensures Building(lines + [line], maxChars, groups + [open], [line])
  {
    FlattenHead(line, []);
    FlattenMore(groups + [open], [line]);
    var before, after := groups + [open], groups + [open] + [[line]];
    forall k | 0 < k < |after|
      ensures CutForced(after, k, maxChars)
    {
      if k < |before| {
        assert CutForced(before, k, maxChars);
      }
    }
  }

  method ChunkTranscript(segments: seq<Labelled>, maxChars: int)
    returns (r: Result<seq<string>>, ghost groups: seq<seq<string>>)
    ensures r.Success? <==>
              maxChars >= MIN_CHUNK_CHARS && forall i :: 0 <= i < |segments| ==> Room(segments[i].prefix, maxChars) > 0
    ensures r.Success? ==> AreChunks(Lines(segments, maxChars), maxChars, groups) && AreSent(groups, r.value)
  {
    hide Building, AreChunks, RStrip, Parts;
    groups := [];
    if maxChars < MIN_CHUNK_CHARS {
      return Failure("max_chars is too small"), [];
    }
    var chunks: seq<string> := [];
    var current := "";
    ghost var open: seq<string> := [];
    NothingBuilt(maxChars);
    for i := 0 to |segments|
      invariant forall j :: 0 <= j < i ==> Room(segments[j].prefix, maxChars) > 0
      invariant current == Flatten(open) && (current == "" <==> open == [])
      invariant Building(Lines(segments[..i], maxChars), maxChars, groups, open) && AreSent(groups, chunks)
    {
      var prefix := segments[i].prefix;
      var room := Room(prefix, maxChars);
      if room <= 0 {
        return Failure("max_chars cannot fit segment metadata"), [];
      }
      var parts := Parts(segments[i].text, room);
      ghost var before := Lines(segments[..i], maxChars);
      ghost var lines := RenderAll(prefix, parts);
      assert before + lines[..0] == before;
      for j := 0 to |parts|
        invariant current == Flatten(open) && (current == "" <==> open == [])
        invariant Building(before + lines[..j], maxChars, groups, open) && AreSent(groups, chunks)
      {
        var rendered := Rendered(prefix, parts[j]);
        assert lines[..j + 1] == lines[..j] + [rendered];
        assert before + lines[..j + 1] == (before + lines[..j]) + [rendered];
        if current != "" && |current| + |rendered| > maxChars {
          Cut(before + lines[..j], maxChars, groups, open, rendered);
          chunks := chunks + [RStrip(current)];
          current := "";
          groups := groups + [open];
          open := [];
        } else {
          Extend(before + lines[..j], maxChars, groups, open, rendered);
        }
        FlattenMore(open, rendered);
        current := current + rendered;
        open := open + [rendered];
      }
      assert lines[..|parts|] == lines;
      assert segments[..i + 1][..i] == segments[..i];
    }
    assert segments[..|segments|] == segments;
    Finished(Lines(segments, maxChars), maxChars, groups, open);
    if current != "" {
      chunks := chunks + [RStrip(current)];
      groups := groups + [open];
    }
    r := Success(chunks);
  }

  lemma NothingBuilt(maxChars: int)
    ensures Building([], maxChars, [], []) && Lines([], maxChars) == [] && Flatten<char>([]) == ""
  {
  }

  lemma Finished(lines: seq<string>, maxChars: int, groups: seq<seq<string>>, open: seq<string>)
    requires Building(lines, maxChars, groups, open)
    ensures AreChunks(lines, maxChars, if open == [] then groups else groups + [open])
  {
  }

  /** Every request is within the limit, and there is one as soon as there is a segment. */
  lemma ChunksFit(segments: seq<Labelled>, maxChars: int, groups: seq<seq<string>>, chunks: seq<string>)
    requires forall i :: 0 <= i < |segments| ==> Room(segments[i].prefix, maxChars) > 0
    requires AreChunks(Lines(segments, maxChars), maxChars, groups) && AreSent(groups, chunks)
    ensures forall k :: 0 <= k < |chunks| ==> |chunks[k]| <= maxChars
    ensures segments != [] ==> chunks != []
  {
    hide Parts;
  }

  /** The requests carry, in order, every character but whitespace of all the parts under their metadata. */
  lemma {:induction false} ChunksKeepInk(lines: seq<string>, maxChars: int, groups: seq<seq<string>>, chunks: seq<string>)
    requires AreChunks(lines, maxChars, groups) && AreSent(groups, chunks)
    ensures Ink(Flatten(chunks)) == Ink(Flatten(lines))
  {
    hide Ink, RStrip;
    GroupsKeepInk(groups, chunks, |groups|);
    assert groups[..|groups|] == groups && chunks[..|groups|] == chunks;
  }

  lemma {:induction false} GroupsKeepInk(groups: seq<seq<string>>, chunks: seq<string>, n: nat)
    requires AreSent(groups, chunks) && n <= |groups|
    ensures Ink(Flatten(chunks[..n])) == Ink(Flatten(Flatten(groups[..n])))
  {
    hide Ink, RStrip, Flatten;
    if n == 0 {
      assert groups[..0] == [] && chunks[..0] == [];
      FlattenNone<string>();
      FlattenNone<char>();
    } else {
      GroupsKeepInk(groups, chunks, n - 1);
      assert groups[..n] == groups[..n - 1] + [groups[n - 1]];
      assert chunks[..n] == chunks[..n - 1] + [chunks[n - 1]];
      FlattenMore(groups[..n - 1], groups[n - 1]);
      FlattenMore(chunks[..n - 1], chunks[n - 1]);
      FlattenConcat(Flatten(groups[..n - 1]), groups[n - 1]);
      RStripKeepsInk(Flatten(groups[n - 1]));
      InkConcat(Flatten(chunks[..n - 1]), chunks[n - 1]);
      InkConcat(Flatten(Flatten(groups[..n - 1])), Flatten(groups[n - 1]));
    }
  }

  // ----- a day's digests: a recording's block is never split over two requests -----

  function Clip(block: string, maxChars: nat): string {
    if |block| > maxChars then block[..maxChars] else block
  }

  function ClipAll(blocks: seq<string>, maxChars: nat): (r: seq<string>)
    ensures |r| == |blocks| && forall i :: 0 <= i < |r| ==> r[i] == Clip(blocks[i], maxChars)
  {
    seq(|blocks|, i requires 0 <= i < |blocks| => Clip(blocks[i], maxChars))
  }

  function JoinBlocks(blocks: seq<string>): string {
    if blocks == [] then ""
    else if |blocks| == 1 then blocks[0]
    else JoinBlocks(blocks[..|blocks| - 1]) + "\n\n" + blocks[|blocks| - 1]
  }

  lemma JoinMore(blocks: seq<string>, block: string)
    ensures JoinBlocks(blocks + [block]) == if blocks == [] then block else JoinBlocks(blocks) + "\n\n" + block
  {
    assert (blocks + [block])[..|blocks|] == blocks;
  }

  lemma JoinOne(block: string)
    ensures JoinBlocks([block]) == block
  {
  }

  /** The blocks with an empty line between neighbours. */
  function Separated(blocks: seq<string>): seq<string> {
    seq(|blocks|, k requires 0 <= k < |blocks| => (if k > 0 then "\n\n" else "") + blocks[k])
  }

  lemma {:induction false} JoinIsSeparated(blocks: seq<string>)
    ensures JoinBlocks(blocks) == Flatten(Separated(blocks))
  {
    hide Flatten, JoinBlocks;
    if blocks == [] {
      FlattenNone<char>();
      NothingJoined();
    } else {
      var front, block := blocks[..|blocks| - 1], blocks[|blocks| - 1];
      JoinIsSeparated(front);
      JoinMore(front, block);
      var last := (if front != [] then "\n\n" else "") + block;
      FlattenMore(Separated(front), last);
      FlattenNone<char>();
      assert Separated(blocks) == Separated(front) + [last] && blocks == front + [block];
      if front == [] {
        assert Separated(front) == [];
      }
    }
  }

  lemma NothingJoined()
    ensures JoinBlocks([]) == ""
  {
  }

  /** A block over the limit is cut to its first characters; any other is sent whole. */
  lemma ClipsKeepBeginnings(blocks: seq<string>, maxChars: nat, i: nat)
    requires i < |blocks|
    ensures var sent := ClipAll(blocks, maxChars)[i];
            sent <= blocks[i] && |sent| == if |blocks[i]| <= maxChars then |blocks[i]| else maxChars
  {
  }

  ghost predicate AreRequests(blocks: seq<string>, maxChars: nat, groups: seq<seq<string>>) {
    && Flatten(groups) == blocks
    && (forall k :: 0 <= k < |groups| ==> groups[k] != [] && |JoinBlocks(groups[k])| <= maxChars)
    && (forall k :: 0 < k < |groups| ==> SplitForced(groups, k, maxChars))
  }

  ghost predicate SplitForced(groups: seq<seq<string>>, k: nat, maxChars: nat)
    requires 0 < k < |groups|
  {
    groups[k] != [] && |JoinBlocks(groups[k - 1])| + |groups[k][0]| + 2 > maxChars
  }

  ghost predicate AreJoined(groups: seq<seq<string>>, chunks: seq<string>) {
    |chunks| == |groups| && forall k :: 0 <= k < |groups| ==> chunks[k] == JoinBlocks(groups[k])
  }

  lemma JoinInto(blocks: seq<string>, maxChars: nat, groups: seq<seq<string>>, open: seq<string>, block: string)
    requires AreRequests(blocks, maxChars, groups + [open]) && open != []
    requires |JoinBlocks(open)| + |block| + 2 <= maxChars
    ensures AreRequests(blocks + [block], maxChars, groups + [open + [block]])
  {
    hide JoinBlocks;
    JoinMore(open, block);
    FlattenMore(groups, open);
    FlattenMore(groups, open + [block]);
    assert Flatten(groups) + (open + [block]) == (Flatten(groups) + open) + [block];
    var before, after := groups + [open], groups + [open + [block]];
    forall k | 0 < k < |after|
      ensures SplitForced(after, k, maxChars)
    {
      assert SplitForced(before, k, maxChars);
    }
  }

  lemma SplitBefore(blocks: seq<string>, maxChars: nat, groups: seq<seq<string>>, open: seq<string>, block: string)
    requires AreRequests(blocks, maxChars, groups + [open]) && |block| <= maxChars
    requires |JoinBlocks(open)| + |block| + 2 > maxChars
    ensures AreRequests(blocks + [block], maxChars, groups + [open] + [[block]])
  {
    JoinMore([], block);
    FlattenMore(groups + [open], [block]);
    var before, after := groups + [open], groups + [open] + [[block]];
    forall k | 0 < k < |after|
      ensures SplitForced(after, k, maxChars)
    {
      if k < |before| {
        assert SplitForced(before, k, maxChars);
      }
    }
  }

  /** blocks are the digests' printed forms, which always begin with a RECORDING line. */
  method ChunkDigests(blocks: seq<string>, maxChars: int)
    returns (r: Result<seq<string>>, ghost groups: seq<seq<string>>)
    requires forall i :: 0 <= i < |blocks| ==> blocks[i] != ""
    ensures r.Success? <==> maxChars >= MIN_CHUNK_CHARS
    ensures r.Success? ==> AreRequests(ClipAll(blocks, maxChars), maxChars, groups) && AreJoined(groups, r.value)
    ensures r.Success? ==> forall k :: 0 <= k < |r.value| ==> |r.value[k]| <= maxChars
    ensures r.Success? && blocks != [] ==> r.value != []
  {
    hide AreRequests, JoinBlocks;
    groups := [];
    if maxChars < MIN_CHUNK_CHARS {
      return Failure("max_chars is too small"), [];
    }
    var chunks: seq<string> := [];
    var current := "";
    ghost var open: seq<string> := [];
    ghost var clipped := ClipAll(blocks, maxChars);
    NoRequests(maxChars);
    for i := 0 to |blocks|
      invariant current == JoinBlocks(open) && (current == "" <==> open == []) && AreJoined(groups, chunks)
      invariant if open == [] then i == 0 && groups == [] else AreRequests(clipped[..i], maxChars, groups + [open])
    {
      var block := Clip(blocks[i], maxChars);
      assert clipped[..i + 1] == clipped[..i] + [block];
      JoinMore(open, block);
      JoinOne(block);
      if current == "" {
        FirstRequest(maxChars, block);
        current := block;
        open := [block];
        assert groups + [open] == [[block]] && clipped[..i] + [block] == [block];
      } else if |current| + |block| + 2 <= maxChars {
        JoinInto(clipped[..i], maxChars, groups, open, block);
        current := current + "\n\n" + block;
        open := open + [block];
      } else {
        SplitBefore(clipped[..i], maxChars, groups, open, block);
        chunks := chunks + [current];
        groups := groups + [open];
        current := block;
        open := [block];
      }
    }
    assert clipped[..|blocks|] == clipped;
    if current != "" {
      chunks := chunks + [current];
      groups := groups + [open];
    }
    RequestsFit(clipped, maxChars, groups, chunks);
    r := Success(chunks);
  }

  lemma NoRequests(maxChars: nat)
    ensures AreRequests([], maxChars, []) && JoinBlocks([]) == ""
  {
  }

  lemma FirstRequest(maxChars: nat, block: string)
    requires |block| <= maxChars
    ensures AreRequests([block], maxChars, [[block]])
  {
    JoinMore([], block);
    FlattenMore([], [block]);
  }

  lemma RequestsFit(blocks: seq<string>, maxChars: nat, groups: seq<seq<string>>, chunks: seq<string>)
    requires AreRequests(blocks, maxChars, groups) && AreJoined(groups, chunks)
    ensures forall k :: 0 <= k < |chunks| ==> |chunks[k]| <= maxChars
  {
  }
}
