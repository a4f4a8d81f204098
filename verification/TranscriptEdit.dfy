/** Saving an edited transcript: reordering, renumbering and overlap flags
    (update_transcript and _overlap_flags in recording_service.py). */
module TranscriptEdit {
  import opened Prelude
  import opened Text
  import opened Sorting
  import opened Sentences
  import opened Translations

  /** One submitted segment; the request schema already rejects empty intervals and blank text. */
  datatype SegmentUpdate = SegmentUpdate(id: SegmentId, speaker: string, start: real, end: real, text: string)

  predicate ValidUpdate(u: SegmentUpdate) {
    0.0 <= u.start < u.end && !Blank(u.speaker) && !Blank(u.text)
  }

  predicate AllValid(updates: seq<SegmentUpdate>) {
    forall i :: 0 <= i < |updates| ==> ValidUpdate(updates[i])
  }

  // ----- the order of an edited transcript -----

  /** By start, then end, then id; ids compare as their fixed-width text does. */
  predicate Earlier(a: SegmentUpdate, b: SegmentUpdate) {
    || a.start < b.start
    || (a.start == b.start && a.end < b.end)
    || (a.start == b.start && a.end == b.end && a.id <= b.id)
  }

  predicate Sorted(updates: seq<SegmentUpdate>) {
    forall i, j :: 0 <= i < j < |updates| ==> Earlier(updates[i], updates[j])
  }

  function Insert(u: SegmentUpdate, sorted: seq<SegmentUpdate>): (r: seq<SegmentUpdate>)
    ensures multiset(r) == multiset(sorted) + multiset{u}
  {
    if sorted == [] || Earlier(u, sorted[0]) then [u] + sorted
    else
      assert sorted == [sorted[0]] + sorted[1..];
      [sorted[0]] + Insert(u, sorted[1..])
  }

  function Ordered(updates: seq<SegmentUpdate>): (r: seq<SegmentUpdate>)
    ensures multiset(r) == multiset(updates)
    ensures |r| == |updates|
  {
    if updates == [] then []
    else
      assert updates == [updates[0]] + updates[1..];
      Insert(updates[0], Ordered(updates[1..]))
  }

  lemma {:induction false} InsertKeepsSorted(u: SegmentUpdate, sorted: seq<SegmentUpdate>)
    requires Sorted(sorted)
    ensures Sorted(Insert(u, sorted))
  {
    if sorted != [] && !Earlier(u, sorted[0]) {
      InsertKeepsSorted(u, sorted[1..]);
      var rest := Insert(u, sorted[1..]);
      forall j | 0 <= j < |rest|
        ensures Earlier(sorted[0], rest[j])
      {
        assert rest[j] in multiset(rest);
        assert rest[j] == u || rest[j] in sorted[1..];
      }
    }
  }

  lemma {:induction false} OrderedIsSorted(updates: seq<SegmentUpdate>)
    ensures Sorted(Ordered(updates))
  {
    if updates != [] {
      OrderedIsSorted(updates[1..]);
      InsertKeepsSorted(updates[0], Ordered(updates[1..]));
    }
  }

  // ----- overlap flags -----

  predicate Overlap(a: SegmentUpdate, b: SegmentUpdate) {
    a.start < b.end && b.start < a.end
  }

  /** Shares time with some other segment: the quadratic definition. */
  predicate OverlapsAnother(updates: seq<SegmentUpdate>, i: nat)
    requires i < |updates|
  {
    exists k :: 0 <= k < |updates| && k != i && Overlap(updates[i], updates[k])
  }

  /** One sweep that remembers the latest end so far decides it for every segment. */
  method OverlapFlags(ordered: seq<SegmentUpdate>) returns (flags: seq<bool>)
    requires Sorted(ordered) && AllValid(ordered)
    ensures |flags| == |ordered|
    ensures forall i :: 0 <= i < |flags| ==> flags[i] == OverlapsAnother(ordered, i)
  {
    flags := [];
    var maxEndBefore: Option<real> := None;
    for i := 0 to |ordered|
      invariant |flags| == i
      invariant maxEndBefore.None? <==> i == 0
      invariant forall k :: 0 <= k < i ==> ordered[k].end <= maxEndBefore.value
      invariant i > 0 ==> exists k :: 0 <= k < i && ordered[k].end == maxEndBefore.value
      invariant forall k :: 0 <= k < i ==> flags[k] == OverlapsAnother(ordered, k)
    {
      var item := ordered[i];
      var overlapsEarlier := maxEndBefore.Some? && maxEndBefore.value > item.start;
      var overlapsLater := i < |ordered| - 1 && ordered[i + 1].start < item.end;
      SweepDecides(ordered, i, maxEndBefore);
      flags := flags + [overlapsEarlier || overlapsLater];
      maxEndBefore := if maxEndBefore.None? || maxEndBefore.value < item.end then Some(item.end) else maxEndBefore;
    }
  }

  lemma SweepDecides(ordered: seq<SegmentUpdate>, i: nat, maxEndBefore: Option<real>)
    requires Sorted(ordered) && AllValid(ordered) && i < |ordered|
    requires maxEndBefore.None? <==> i == 0
    requires forall k :: 0 <= k < i ==> ordered[k].end <= maxEndBefore.value
    requires i > 0 ==> exists k :: 0 <= k < i && ordered[k].end == maxEndBefore.value
    ensures OverlapsAnother(ordered, i) <==>
              || (maxEndBefore.Some? && maxEndBefore.value > ordered[i].start)
              || (i < |ordered| - 1 && ordered[i + 1].start < ordered[i].end)
  {
    if i > 0 && maxEndBefore.value > ordered[i].start {
      var k :| 0 <= k < i && ordered[k].end == maxEndBefore.value;
      assert Earlier(ordered[k], ordered[i]);
      assert Overlap(ordered[i], ordered[k]);
    }
    if i < |ordered| - 1 && ordered[i + 1].start < ordered[i].end {
      assert Earlier(ordered[i], ordered[i + 1]);
      assert Overlap(ordered[i], ordered[i + 1]);
    }
    if k :| 0 <= k < |ordered| && k != i && Overlap(ordered[i], ordered[k]) {
      if k > i + 1 {
        assert Earlier(ordered[i + 1], ordered[k]);
      }
    }
  }

  // ----- the saved rows -----

  function RowIds(segments: seq<SegmentRow>): set<SegmentId> {
    set k | 0 <= k < |segments| :: segments[k].id
  }

  function UpdateIds(updates: seq<SegmentUpdate>): set<SegmentId> {
    set k | 0 <= k < |updates| :: updates[k].id
  }

  /** The submitted list must be the complete current list, each segment once. */
  predicate Complete(segments: seq<SegmentRow>, updates: seq<SegmentUpdate>) {
    && (forall i, j :: 0 <= i < j < |updates| ==> updates[i].id != updates[j].id)
    && UpdateIds(updates) == RowIds(segments)
  }

  function SavedRow(ordered: seq<SegmentUpdate>, i: nat): SegmentRow
    requires i < |ordered|
  {
    var u := ordered[i];
    SegmentRow(u.id, Segment(i, u.speaker, u.start, u.end, u.text), OverlapsAnother(ordered, i))
  }

  /** The transcript an edit leaves, in sequence order. */
  function Edited(segments: seq<SegmentRow>, updates: seq<SegmentUpdate>, duration: real)
    : (r: Result<seq<SegmentRow>>)
  {
    if !Complete(segments, updates) then Failure("transcript_segments_incomplete")
    else if exists u :: u in updates && u.end > duration then Failure("transcript_time_out_of_range")
    else
      var ordered := Ordered(updates);
      Success(seq(|ordered|, i requires 0 <= i < |ordered| => SavedRow(ordered, i)))
  }

  lemma OrderedKeepsIds(updates: seq<SegmentUpdate>)
    requires forall i, j :: 0 <= i < j < |updates| ==> updates[i].id != updates[j].id
    ensures forall u :: u in Ordered(updates) <==> u in updates
    ensures forall i, j :: 0 <= i < j < |updates| ==> Ordered(updates)[i].id != Ordered(updates)[j].id
  {
    var ordered := Ordered(updates);
    SameItems(ordered, updates);
    SameItems(updates, ordered);
    DistinctStays(updates, ordered);
    forall i, j | 0 <= i < j < |ordered|
      ensures ordered[i].id != ordered[j].id
    {
      assert ordered[i] in updates && ordered[j] in updates && ordered[i] != ordered[j];
    }
  }

  /** By start, then end, then id, and never the same twice. */
  predicate RowEarlier(a: SegmentRow, b: SegmentRow) {
    || a.segment.start < b.segment.start
    || (a.segment.start == b.segment.start && a.segment.end < b.segment.end)
    || (a.segment.start == b.segment.start && a.segment.end == b.segment.end && a.id < b.id)
  }

  /** The row holds what was submitted for its segment, under this number. */
  predicate Holds(row: SegmentRow, u: SegmentUpdate, sequence: nat) {
    row.id == u.id && row.segment == Segment(sequence, u.speaker, u.start, u.end, u.text)
  }

  predicate RowsOverlap(a: SegmentRow, b: SegmentRow) {
    a.segment.start < b.segment.end && b.segment.start < a.segment.end
  }

  lemma EditedRows(segments: seq<SegmentRow>, updates: seq<SegmentUpdate>, duration: real)
    requires Edited(segments, updates, duration).Success?
    ensures var rows := Edited(segments, updates, duration).value; var ordered := Ordered(updates);
            && |rows| == |ordered|
            && (forall k :: 0 <= k < |rows| ==> rows[k] == SavedRow(ordered, k))
            && (forall k :: 0 <= k < |rows| ==> Holds(rows[k], ordered[k], k))
            && (forall k :: 0 <= k < |ordered| ==> ordered[k] in updates)
            && (forall u :: u in updates ==> u in ordered)
            && (forall k, m :: 0 <= k < m < |rows| ==> RowEarlier(rows[k], rows[m]))
  {
    var ordered := Ordered(updates);
    OrderedKeepsIds(updates);
    OrderedIsSorted(updates);
    forall k, m | 0 <= k < m < |ordered|
      ensures Earlier(ordered[k], ordered[m]) && ordered[k].id != ordered[m].id
    {
    }
  }

  /** An accepted edit keeps exactly the same segments and numbers them 0..n-1, strictly in (start, end, id) order. */
  lemma EditedIsRenumbering(segments: seq<SegmentRow>, updates: seq<SegmentUpdate>, duration: real)
    requires Edited(segments, updates, duration).Success?
    ensures var rows := Edited(segments, updates, duration).value;
            && WellNumbered(rows)
            && (forall k :: 0 <= k < |segments| ==> IsSegment(rows, segments[k].id))
            && (forall k :: 0 <= k < |rows| ==> IsSegment(segments, rows[k].id))
            && (forall i, j :: 0 <= i < j < |rows| ==> RowEarlier(rows[i], rows[j]))
  {
    hide SavedRow, Edited;
    EditedRows(segments, updates, duration);
    EditIsComplete(segments, updates, duration);
    var ordered := Ordered(updates);
    var rows := Edited(segments, updates, duration).value;
    OrderedKeepsIds(updates);
    forall k | 0 <= k < |segments|
      ensures IsSegment(rows, segments[k].id)
    {
      assert segments[k].id in UpdateIds(updates);
      var m :| 0 <= m < |updates| && updates[m].id == segments[k].id;
      assert updates[m] in ordered;
      var n :| 0 <= n < |ordered| && ordered[n] == updates[m];
      assert rows[n].id == segments[k].id;
    }
    forall k | 0 <= k < |rows|
      ensures IsSegment(segments, rows[k].id)
    {
      var m :| 0 <= m < |updates| && updates[m] == ordered[k];
      assert updates[m].id in RowIds(segments);
    }
    forall i, j | 0 <= i < j < |rows|
      ensures rows[i].id != rows[j].id
    {
      assert Holds(rows[i], ordered[i], i) && Holds(rows[j], ordered[j], j);
    }
  }

  lemma EditIsComplete(segments: seq<SegmentRow>, updates: seq<SegmentUpdate>, duration: real)
    requires Edited(segments, updates, duration).Success?
    ensures Complete(segments, updates)
  {
  }

  predicate Names(segments: seq<SegmentRow>, u: SegmentUpdate) {
    exists k :: 0 <= k < |segments| && segments[k].id == u.id
  }

  predicate Named(segment: SegmentRow, updates: seq<SegmentUpdate>) {
    exists k :: 0 <= k < |updates| && updates[k].id == segment.id
  }

  /** An edit is accepted exactly when it submits every stored segment once, nothing else, and nothing past the end
      of the recording. */
  lemma EditAcceptedIff(segments: seq<SegmentRow>, updates: seq<SegmentUpdate>, duration: real)
    ensures Edited(segments, updates, duration).Success? <==>
              && (forall i, j :: 0 <= i < j < |updates| ==> updates[i].id != updates[j].id)
              && (forall i :: 0 <= i < |updates| ==> Names(segments, updates[i]) && updates[i].end <= duration)
              && (forall i :: 0 <= i < |segments| ==> Named(segments[i], updates))
  {
    hide Ordered;
    var stored, submitted := RowIds(segments), UpdateIds(updates);
    forall i | 0 <= i < |updates|
      ensures updates[i].id in submitted && (updates[i].id in stored <==> Names(segments, updates[i]))
    {
    }
    forall i | 0 <= i < |segments|
      ensures segments[i].id in stored && (segments[i].id in submitted <==> Named(segments[i], updates))
    {
    }
    if u :| u in updates && u.end > duration {
      var i :| 0 <= i < |updates| && updates[i] == u;
    }
  }

  /** Every row holds what was submitted for it, and every submission has its row. */
  lemma EditedHoldsUpdates(segments: seq<SegmentRow>, updates: seq<SegmentUpdate>, duration: real)
    requires Edited(segments, updates, duration).Success?
    ensures var rows := Edited(segments, updates, duration).value;
            && (forall k :: 0 <= k < |rows| ==> exists u :: u in updates && Holds(rows[k], u, k))
            && (forall u :: u in updates ==> exists k :: 0 <= k < |rows| && Holds(rows[k], u, k))
  {
    hide Edited, Ordered, SavedRow, RowEarlier, Holds;
    EditedRows(segments, updates, duration);
    var ordered := Ordered(updates);
    var rows := Edited(segments, updates, duration).value;
    forall u | u in updates
      ensures exists k :: 0 <= k < |rows| && Holds(rows[k], u, k)
    {
      var k :| 0 <= k < |ordered| && ordered[k] == u;
      assert Holds(rows[k], u, k);
    }
  }

  lemma SavedRowsOverlap(ordered: seq<SegmentUpdate>, k: nat, m: nat)
    requires k < |ordered| && m < |ordered|
    ensures RowsOverlap(SavedRow(ordered, k), SavedRow(ordered, m)) <==> Overlap(ordered[k], ordered[m])
  {
  }

  /** A row is flagged exactly when it shares time with another row. */
  lemma EditedFlagsOverlap(segments: seq<SegmentRow>, updates: seq<SegmentUpdate>, duration: real, k: nat)
    requires Edited(segments, updates, duration).Success? && k < |Edited(segments, updates, duration).value|
    ensures var rows := Edited(segments, updates, duration).value;
            rows[k].hasOverlap <==> exists m :: 0 <= m < |rows| && m != k && RowsOverlap(rows[k], rows[m])
  {
    hide Edited, Ordered, RowEarlier, Holds, Overlap, RowsOverlap;
    EditedRows(segments, updates, duration);
    var ordered := Ordered(updates);
    var rows := Edited(segments, updates, duration).value;
    forall m | 0 <= m < |rows|
      ensures RowsOverlap(rows[k], rows[m]) <==> Overlap(ordered[k], ordered[m])
    {
      SavedRowsOverlap(ordered, k, m);
    }
  }

  // ----- the two passes over the sequence column -----

  /** The unique constraint on (recording, sequence), over the column of one recording's rows. */
  ghost predicate NoClash(column: seq<int>) {
    forall p, q :: 0 <= p < q < |column| ==> column[p] != column[q]
  }

  ghost predicate OneRowUpdated(before: seq<int>, after: seq<int>) {
    |before| == |after| && exists p :: 0 <= p < |after| && after == before[p := after[p]]
  }

  /** A history of single row updates, none of which ever clashes. */
  ghost predicate ClashFree(trace: seq<seq<int>>) {
    && (forall t :: 0 <= t < |trace| ==> NoClash(trace[t]))
    && (forall t :: 0 <= t < |trace| - 1 ==> OneRowUpdated(trace[t], trace[t + 1]))
  }

  lemma ExtendTrace(trace: seq<seq<int>>, p: nat, n: int)
    requires |trace| > 0 && ClashFree(trace) && p < |trace[|trace| - 1]|
    requires NoClash(trace[|trace| - 1][p := n])
    ensures ClashFree(trace + [trace[|trace| - 1][p := n]])
  {
    var last := trace[|trace| - 1];
    var next := last[p := n];
    assert next == last[p := next[p]];
    var longer := trace + [next];
    forall t | 0 <= t < |longer| - 1
      ensures OneRowUpdated(longer[t], longer[t + 1])
    {
      if t == |trace| - 1 {
        assert longer[t] == last && longer[t + 1] == next;
      }
    }
  }

  /** The row each submitted segment updates, in the order the rows were read. */
  ghost predicate Targets(positions: seq<nat>, n: nat) {
    && |positions| == n
    && (forall i :: 0 <= i < n ==> positions[i] < n)
    && (forall i, j :: 0 <= i < j < n ==> positions[i] != positions[j])
  }

  /** Each row update of the two passes leaves the column free of clashes, because the first pass
      moves every row below zero before the second hands out the final numbers. */
  method Renumber(column: seq<int>, positions: seq<nat>)
    returns (final: seq<int>, ghost trace: seq<seq<int>>)
    requires Targets(positions, |column|) && NoClash(column)
    requires forall p :: 0 <= p < |column| ==> column[p] >= 0
    ensures |final| == |column| && forall i :: 0 <= i < |positions| ==> final[positions[i]] == i
    ensures |trace| == 2 * |column| + 1 && trace[0] == column && trace[2 * |column|] == final
    ensures ClashFree(trace)
  {
    final := column;
    trace := [column];
    for i := 0 to |column|
      invariant |final| == |column|
      invariant forall p :: 0 <= p < |column| ==> final[p] == if p < i then -(p + 1) else column[p]
      invariant |trace| == i + 1 && trace[0] == column && trace[i] == final && ClashFree(trace)
    {
      ExtendTrace(trace, i, -(i + 1));
      final := final[i := -(i + 1)];
      trace := trace + [final];
    }
    for i := 0 to |column|
      invariant |final| == |column|
      invariant HalfNumbered(final, positions, i)
      invariant |trace| == |column| + i + 1 && trace[0] == column && trace[|column| + i] == final && ClashFree(trace)
    {
      NumberOne(final, positions, i);
      ExtendTrace(trace, positions[i], i);
      final := final[positions[i] := i];
      trace := trace + [final];
    }
  }

  /** Midway through the second pass: i rows carry their final number, the others are still below zero. */
  ghost predicate HalfNumbered(column: seq<int>, positions: seq<nat>, i: nat)
    requires i <= |positions| == |column| && Targets(positions, |column|)
  {
    && (forall k :: 0 <= k < i ==> column[positions[k]] == k)
    && (forall p :: 0 <= p < |column| && p !in positions[..i] ==> column[p] == -(p + 1))
  }

  lemma NumberOne(column: seq<int>, positions: seq<nat>, i: nat)
    requires i < |positions| == |column| && Targets(positions, |column|)
    requires HalfNumbered(column, positions, i)
    ensures HalfNumbered(column[positions[i] := i], positions, i + 1)
    ensures NoClash(column[positions[i] := i])
  {
    var next := column[positions[i] := i];
    forall p | 0 <= p < |column| && p !in positions[..i + 1]
      ensures next[p] == -(p + 1)
    {
      assert positions[i] in positions[..i + 1];
      assert forall k :: 0 <= k < i ==> positions[..i][k] == positions[..i + 1][k];
    }
    forall p, q | 0 <= p < q < |column|
      ensures next[p] != next[q]
    {
      Numbering(next, positions, i + 1, p);
      Numbering(next, positions, i + 1, q);
    }
  }

  lemma Numbering(column: seq<int>, positions: seq<nat>, i: nat, p: nat)
    requires i <= |positions| == |column| && Targets(positions, |column|) && p < |column|
    requires forall k :: 0 <= k < i ==> column[positions[k]] == k
    requires forall p :: 0 <= p < |column| && p !in positions[..i] ==> column[p] == -(p + 1)
    ensures column[p] == -(p + 1) || (0 <= column[p] < i && positions[column[p]] == p)
  {
    if p in positions[..i] {
      var k :| 0 <= k < i && positions[..i][k] == p;
    }
  }

  // ----- whatever order the updates of a pass are sent in -----

  /** Midway through the first pass: these rows are below zero, the others as they were. */
  ghost predicate MidFirst(column: seq<int>, mid: seq<int>, done: set<nat>) {
    |mid| == |column| && forall p :: 0 <= p < |mid| ==> mid[p] == if p in done then -(p + 1) else column[p]
  }

  lemma FirstPassNeverClashes(column: seq<int>, mid: seq<int>, done: set<nat>)
    requires NoClash(column) && MidFirst(column, mid, done) && forall p :: 0 <= p < |column| ==> column[p] >= 0
    ensures NoClash(mid)
  {
  }

  /** Row p already has the number of the update that targets it. */
  predicate HasNumber(positions: seq<nat>, mid: seq<int>, done: set<nat>, p: nat)
    requires p < |mid|
  {
    0 <= mid[p] < |positions| && mid[p] in done && positions[mid[p]] == p
  }

  /** Midway through the second pass: the targets of these updates have their numbers, the others are below zero. */
  ghost predicate MidSecond(positions: seq<nat>, mid: seq<int>, done: set<nat>) {
    && |mid| == |positions|
    && forall p :: 0 <= p < |mid| ==>
         HasNumber(positions, mid, done, p)
         || (mid[p] == -(p + 1) && forall i :: 0 <= i < |positions| && i in done ==> positions[i] != p)
  }

  lemma SecondPassNeverClashes(positions: seq<nat>, mid: seq<int>, done: set<nat>)
    requires Targets(positions, |positions|) && MidSecond(positions, mid, done)
    ensures NoClash(mid)
    ensures forall i :: 0 <= i < |positions| && i in done ==> mid[positions[i]] == i
  {
    forall p, q | 0 <= p < q < |mid|
      ensures mid[p] != mid[q]
    {
      if HasNumber(positions, mid, done, p) && HasNumber(positions, mid, done, q) {
        assert positions[mid[p]] != positions[mid[q]];
      }
    }
    forall i | 0 <= i < |positions| && i in done
      ensures mid[positions[i]] == i
    {
      assert HasNumber(positions, mid, done, positions[i]);
    }
  }

  /** One more update of either pass, whichever it is, leads from one such state to the next. */
  lemma PassesGoOn(column: seq<int>, positions: seq<nat>, first: seq<int>, second: seq<int>, done: set<nat>, i: nat)
    requires Targets(positions, |column|) && i < |column| && i !in done
    requires MidFirst(column, first, done) && MidSecond(positions, second, done)
    ensures MidFirst(column, first[i := -(i + 1)], done + {i})
    ensures MidSecond(positions, second[positions[i] := i], done + {i})
  {
    var next := second[positions[i] := i];
    forall p: nat | p < |next|
      ensures HasNumber(positions, next, done + {i}, p)
              || (next[p] == -(p + 1) && forall k :: 0 <= k < |positions| && k in done + {i} ==> positions[k] != p)
    {
      if p != positions[i] && HasNumber(positions, second, done, p) {
        assert HasNumber(positions, next, done + {i}, p);
      }
    }
  }

  /** The first pass ends where the second begins. */
  lemma PassesMeet(column: seq<int>, positions: seq<nat>, mid: seq<int>, done: set<nat>)
    requires |positions| == |column| && MidFirst(column, mid, done) && forall p: nat :: p < |column| ==> p in done
    ensures MidFirst(column, column, {}) && MidSecond(positions, mid, {})
  {
  }

  function TargetRows(segments: seq<SegmentRow>, updates: seq<SegmentUpdate>): (r: seq<nat>)
    ensures |r| == |updates|
    ensures forall i :: 0 <= i < |r| ==> r[i] == PositionOf(segments, updates[i].id)
  {
    seq(|updates|, i requires 0 <= i < |updates| => PositionOf(segments, updates[i].id))
  }

  /** In a complete edit every submitted segment updates a row of its own. */
  lemma {:induction false} CompleteHasTargets(segments: seq<SegmentRow>, updates: seq<SegmentUpdate>)
    requires Complete(segments, updates)
    requires forall i, j :: 0 <= i < j < |segments| ==> segments[i].id != segments[j].id
    ensures |updates| == |segments|
    ensures Targets(TargetRows(segments, updates), |segments|)
  {
    forall i | 0 <= i < |updates|
      ensures PositionOf(segments, updates[i].id) < |segments|
    {
      assert updates[i].id in RowIds(segments);
    }
    var theirs := seq(|updates|, i requires 0 <= i < |updates| => updates[i].id);
    var ours := seq(|segments|, i requires 0 <= i < |segments| => segments[i].id);
    DistinctIds(theirs, UpdateIds(updates)) by {
      assert forall k :: 0 <= k < |updates| ==> theirs[k] == updates[k].id;
    }
    DistinctIds(ours, RowIds(segments)) by {
      assert forall k :: 0 <= k < |segments| ==> ours[k] == segments[k].id;
    }
  }

  lemma {:induction false} DistinctIds(ids: seq<SegmentId>, all: set<SegmentId>)
    requires forall i, j :: 0 <= i < j < |ids| ==> ids[i] != ids[j]
    requires forall id :: id in all <==> exists k :: 0 <= k < |ids| && ids[k] == id
    ensures |all| == |ids|
  {
    if ids == [] {
      assert all == {};
    } else {
      assert ids[0] in all;
      var rest := ids[1..];
      forall id
        ensures id in all - {ids[0]} <==> exists k :: 0 <= k < |rest| && rest[k] == id
      {
        if id in all - {ids[0]} {
          var k :| 0 <= k < |ids| && ids[k] == id;
          assert rest[k - 1] == id;
        }
        if k :| 0 <= k < |rest| && rest[k] == id {
          assert ids[k + 1] == id;
        }
      }
      DistinctIds(rest, all - {ids[0]});
    }
  }
}
