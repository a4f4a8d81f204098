/** Listing the newest days without reading every recording (services/daily_service.py). */
module DayList {
  import opened Prelude
  import opened Days
  import opened Sorting
  import opened Schema
  import opened Services
  import opened DayReads

  /** A recording as the list reads it. */
  datatype Row = Row(id: RecordingId, startedAt: Micros)

  datatype Entry = Entry(day: Day, recordings: nat, analysed: nat, summary: Option<AnalysisStatus>, stale: bool)

  predicate NewestFirst(rows: seq<Row>) {
    forall i, j :: 0 <= i < j < |rows| ==> rows[i].startedAt >= rows[j].startedAt
  }

  // ----- what the list is of all the rows -----

  /** The days the rows fall on, in order of first appearance. */
  function DaysOf(rows: seq<Row>): (days: seq<Day>)
    ensures forall d :: d in days <==> exists i :: 0 <= i < |rows| && DayOf(rows[i].startedAt) == d
  {
    if rows == [] then []
    else
      var days := DaysOf(rows[..|rows| - 1]);
      var day := DayOf(rows[|rows| - 1].startedAt);
      if day in days then days else days + [day]
  }

  function CountOn(rows: seq<Row>, among: Option<set<RecordingId>>, day: Day): nat {
    if rows == [] then 0
    else
      var last := rows[|rows| - 1];
      CountOn(rows[..|rows| - 1], among, day)
      + if DayOf(last.startedAt) == day && (among.Some? ==> last.id in among.value) then 1 else 0
  }

  predicate Later(a: Day, b: Day) {
    a >= b
  }

  function Window(days: seq<Day>, limit: nat, offset: nat): seq<Day> {
    if |days| <= offset then []
    else days[offset..if |days| <= offset + limit then |days| else offset + limit]
  }

  function SummaryStatus(db: Db, day: Day): Option<AnalysisStatus> {
    if day in db.summaries then Some(db.summaries[day].status) else None
  }

  /** A day's line, with the counts of all its rows. */
  function FullEntry(db: Db, rows: seq<Row>, analysed: set<RecordingId>, day: Day): Entry {
    Entry(day, CountOn(rows, None, day), CountOn(rows, Some(analysed), day), SummaryStatus(db, day), IsStale(db, day))
  }

  ghost predicate IsListing(db: Db, rows: seq<Row>, analysed: set<RecordingId>, limit: nat, offset: nat, entries: seq<Entry>) {
    var days := Window(DaysOf(rows), limit, offset);
    |entries| == |days| && forall k :: 0 <= k < |days| ==> entries[k] == FullEntry(db, rows, analysed, days[k])
  }

  // ----- why stopping early loses nothing -----

  lemma DayOfGrows(a: Micros, b: Micros)
    requires a <= b
    ensures DayOf(a) <= DayOf(b)
  {
  }

  predicate Descending(days: seq<Day>) {
    forall i, j :: 0 <= i < j < |days| ==> days[i] > days[j]
  }

  lemma {:induction false} DaysDescend(rows: seq<Row>)
    requires NewestFirst(rows)
    ensures Descending(DaysOf(rows))
  {
    hide DayOf;
    if rows != [] {
      var front, last := rows[..|rows| - 1], rows[|rows| - 1];
      DaysDescend(front);
      forall d | d in DaysOf(front)
        ensures d >= DayOf(last.startedAt)
      {
        var i :| 0 <= i < |front| && DayOf(front[i].startedAt) == d;
        assert rows[i] == front[i];
        DayOfGrows(last.startedAt, front[i].startedAt);
      }
      forall i | 0 <= i < |DaysOf(front)|
        ensures DaysOf(front)[i] >= DayOf(last.startedAt)
      {
        assert DaysOf(front)[i] in DaysOf(front);
      }
    }
  }

  lemma {:induction false} DaysArePrefix(rows: seq<Row>, n: nat)
    requires n <= |rows|
    ensures |DaysOf(rows[..n])| <= |DaysOf(rows)| && DaysOf(rows)[..|DaysOf(rows[..n])|] == DaysOf(rows[..n])
    decreases |rows|
  {
    if n == |rows| {
      assert rows[..n] == rows;
    } else {
      DaysArePrefix(rows[..|rows| - 1], n);
      assert rows[..|rows| - 1][..n] == rows[..n];
    }
  }

  /** No row from n on falls on this day, so the rows before n count it in full. */
  lemma {:induction false} CountIsFull(rows: seq<Row>, among: Option<set<RecordingId>>, n: nat, day: Day)
    requires n <= |rows| && forall i :: n <= i < |rows| ==> DayOf(rows[i].startedAt) != day
    ensures CountOn(rows, among, day) == CountOn(rows[..n], among, day)
    decreases |rows|
  {
    hide DayOf;
    if n == |rows| {
      assert rows[..n] == rows;
    } else {
      CountIsFull(rows[..|rows| - 1], among, n, day);
      assert rows[..|rows| - 1][..n] == rows[..n];
    }
  }

  /** Once a new day shows up, the days before it are behind for good. */
  lemma OldDaysAreDone(rows: seq<Row>, n: nat, day: Day)
    requires NewestFirst(rows) && n < |rows|
    requires day in DaysOf(rows[..n]) && DayOf(rows[n].startedAt) !in DaysOf(rows[..n])
    ensures forall i :: n <= i < |rows| ==> DayOf(rows[i].startedAt) != day
  {
    hide DayOf;
    var k :| 0 <= k < n && DayOf(rows[..n][k].startedAt) == day;
    DayOfGrows(rows[n].startedAt, rows[k].startedAt);
    forall i | n <= i < |rows|
      ensures DayOf(rows[i].startedAt) != day
    {
      DayOfGrows(rows[i].startedAt, rows[n].startedAt);
    }
  }

  lemma AlreadySorted(days: seq<Day>)
    requires Descending(days)
    ensures Sort(Later, days) == days
  {
    SortSorts(Later, days, days);
    SameItems(Sort(Later, days), days);
    SortedIsUnique(Later, Sort(Later, days), days, days);
  }

  function Tally(counts: map<Day, nat>, day: Day): nat {
    if day in counts then counts[day] else 0
  }

  /** The dictionary counts the rows read so far, day by day. */
  ghost predicate Tallied(counts: map<Day, nat>, rows: seq<Row>, among: Option<set<RecordingId>>) {
    forall d :: Tally(counts, d) == CountOn(rows, among, d)
  }

  lemma OneMore(counts: map<Day, nat>, rows: seq<Row>, among: Option<set<RecordingId>>)
    requires rows != [] && Tallied(counts, rows[..|rows| - 1], among)
    ensures var last := rows[|rows| - 1]; var day := DayOf(last.startedAt);
            Tallied(if among.Some? && last.id !in among.value then counts else counts[day := Tally(counts, day) + 1], rows, among)
  {
    hide DayOf;
    var last := rows[|rows| - 1];
    var day := DayOf(last.startedAt);
    var after := if among.Some? && last.id !in among.value then counts else counts[day := Tally(counts, day) + 1];
    forall d
      ensures Tally(after, d) == CountOn(rows, among, d)
    {
      assert Tally(counts, d) == CountOn(rows[..|rows| - 1], among, d);
    }
  }

  lemma OneMoreDay(rows: seq<Row>)
    requires rows != []
    ensures var day := DayOf(rows[|rows| - 1].startedAt); var days := DaysOf(rows[..|rows| - 1]);
            DaysOf(rows) == if day in days then days else days + [day]
  {
    hide DayOf;
  }

  lemma NothingRead(among: Option<set<RecordingId>>)
    ensures DaysOf([]) == [] && Tallied(map[], [], among)
  {
  }

  ghost predicate SameKeys(counts: map<Day, nat>, order: seq<Day>) {
    forall d :: d in counts <==> d in order
  }

  /** counts holds a dictionary's values, order its keys as they were inserted, read how far the rows were read. */
  method ReadRows(rows: seq<Row>, analysedIds: set<RecordingId>, wanted: nat)
    returns (counts: map<Day, nat>, order: seq<Day>, analysed: map<Day, nat>, read: nat)
    ensures read <= |rows| && order == DaysOf(rows[..read])
    ensures Tallied(counts, rows[..read], None) && Tallied(analysed, rows[..read], Some(analysedIds))
    ensures read == |rows| || (DayOf(rows[read].startedAt) !in order && |order| >= wanted)
  {
    hide DayOf, DaysOf, CountOn, Tallied;
    counts, order, analysed := map[], [], map[];
    read := 0;
    NothingRead(None);
    NothingRead(Some(analysedIds));
    for i := 0 to |rows|
      invariant read == i && order == DaysOf(rows[..i]) && SameKeys(counts, order)
      invariant Tallied(counts, rows[..i], None) && Tallied(analysed, rows[..i], Some(analysedIds))
    {
      var row := rows[i];
      var day := DayOf(row.startedAt);
      if day !in counts && |order| >= wanted {
        return;
      }
      assert rows[..i + 1][..i] == rows[..i];
      OneMore(counts, rows[..i + 1], None);
      OneMore(analysed, rows[..i + 1], Some(analysedIds));
      OneMoreDay(rows[..i + 1]);
      if day !in counts {
        order := order + [day];
      }
      counts := counts[day := Tally(counts, day) + 1];
      if row.id in analysedIds {
        analysed := analysed[day := Tally(analysed, day) + 1];
      }
      read := read + 1;
    }
  }

  /** The page of newest days, each with its full counts, its summary's status and whether that is stale. */
  method ListDays(db: Db, rows: seq<Row>, analysedIds: set<RecordingId>, limit: nat, offset: nat) returns (entries: seq<Entry>)
    requires NewestFirst(rows)
    ensures IsListing(db, rows, analysedIds, limit, offset, entries)
  {
    hide DayOf, Descending, DaysOf, CountOn, Window, Sort, Tally, IsStale, SummaryStatus;
    var counts, order, analysed, read := ReadRows(rows, analysedIds, limit + offset);
    EnoughRead(rows, analysedIds, read, limit, offset);
    DaysDescend(rows[..read]);
    AlreadySorted(order);
    var days := Window(Sort(Later, order), limit, offset);
    PageOfOrder(order, limit, offset);
    entries := [];
    for k := 0 to |days|
      invariant |entries| == k
      invariant forall j :: 0 <= j < k ==> entries[j] == FullEntry(db, rows, analysedIds, days[j])
    {
      assert days[k] in order;
      entries := entries + [Entry(days[k], Tally(counts, days[k]), Tally(analysed, days[k]),
                                  SummaryStatus(db, days[k]), IsStale(db, days[k]))];
    }
  }

  /** Where reading stops, the page and its counts are already those of all the rows. */
  lemma EnoughRead(rows: seq<Row>, analysedIds: set<RecordingId>, read: nat, limit: nat, offset: nat)
    requires NewestFirst(rows) && read <= |rows|
    requires read == |rows| || (DayOf(rows[read].startedAt) !in DaysOf(rows[..read]) && |DaysOf(rows[..read])| >= limit + offset)
    ensures Window(DaysOf(rows[..read]), limit, offset) == Window(DaysOf(rows), limit, offset)
    ensures forall d :: d in DaysOf(rows[..read]) ==>
              && CountOn(rows[..read], None, d) == CountOn(rows, None, d)
              && CountOn(rows[..read], Some(analysedIds), d) == CountOn(rows, Some(analysedIds), d)
  {
    hide DayOf, DaysOf, CountOn;
    if read == |rows| {
      assert rows[..read] == rows;
    } else {
      DaysArePrefix(rows, read);
      SamePage(DaysOf(rows[..read]), DaysOf(rows), limit, offset);
      forall d | d in DaysOf(rows[..read])
        ensures CountOn(rows[..read], None, d) == CountOn(rows, None, d)
        ensures CountOn(rows[..read], Some(analysedIds), d) == CountOn(rows, Some(analysedIds), d)
      {
        OldDaysAreDone(rows, read, d);
        CountIsFull(rows, None, read, d);
        CountIsFull(rows, Some(analysedIds), read, d);
      }
    }
  }

  lemma PageOfOrder(order: seq<Day>, limit: nat, offset: nat)
    ensures forall k :: 0 <= k < |Window(order, limit, offset)| ==> Window(order, limit, offset)[k] in order
  {
  }

  lemma SamePage(short: seq<Day>, long: seq<Day>, limit: nat, offset: nat)
    requires |short| <= |long| && long[..|short|] == short && |short| >= limit + offset
    ensures Window(short, limit, offset) == Window(long, limit, offset)
  {
  }

  // ----- what a page shows -----

  /** The rows of a day, by their places: all of them, or those of an analysed recording. */
  function RowsOn(rows: seq<Row>, among: Option<set<RecordingId>>, day: Day): set<nat> {
    set i: nat | i < |rows| && BeganOn(rows[i].startedAt, day) && (among.Some? ==> rows[i].id in among.value)
  }

  lemma {:induction false} CountIsRows(rows: seq<Row>, among: Option<set<RecordingId>>, day: Day)
    ensures CountOn(rows, among, day) == |RowsOn(rows, among, day)|
  {
    hide DayOf, BeganOn;
    if rows == [] {
      assert RowsOn(rows, among, day) == {};
    } else {
      var n := |rows| - 1;
      CountIsRows(rows[..n], among, day);
      WindowIsDay(rows[n].startedAt, day);
      BeganIsInWindow(rows[n].startedAt, day);
      var before := RowsOn(rows[..n], among, day);
      if BeganOn(rows[n].startedAt, day) && (among.Some? ==> rows[n].id in among.value) {
        assert RowsOn(rows, among, day) == before + {n};
      } else {
        assert RowsOn(rows, among, day) == before;
      }
    }
  }

  lemma BeganIsInWindow(moment: Micros, day: Day)
    ensures BeganOn(moment, day) <==> InWindow(moment, day)
  {
  }

  /** The days on which any row falls. */
  function AllDays(rows: seq<Row>): set<Day> {
    set i | 0 <= i < |rows| :: DayOf(rows[i].startedAt)
  }

  lemma {:induction false} DistinctCount(days: seq<Day>)
    requires Descending(days)
    ensures |set d | d in days| == |days|
  {
    if days != [] {
      var n := |days| - 1;
      DistinctCount(days[..n]);
      assert days[n] !in days[..n];
      assert (set d | d in days) == (set d | d in days[..n]) + {days[n]};
    }
  }

  lemma LaterDays(rows: seq<Row>, k: nat)
    requires NewestFirst(rows) && k < |DaysOf(rows)|
    ensures |set d | d in AllDays(rows) && d > DaysOf(rows)[k]| == k
    ensures |AllDays(rows)| == |DaysOf(rows)|
  {
    hide DayOf, DaysOf;
    DaysDescend(rows);
    var days := DaysOf(rows);
    assert AllDays(rows) == set d | d in days;
    DistinctCount(days);
    DistinctCount(days[..k]);
    assert (set d | d in AllDays(rows) && d > days[k]) == set d | d in days[..k];
  }

  /** Each line shows a day with as many newer days as its place says, all the recordings of that day and all the
      analysed ones among them, and its summary as it stands; the page is short only where the days run out. */
  lemma PageIs(db: Db, rows: seq<Row>, analysed: set<RecordingId>, limit: nat, offset: nat, entries: seq<Entry>)
    requires NewestFirst(rows) && IsListing(db, rows, analysed, limit, offset, entries)
    ensures |entries| == if |AllDays(rows)| <= offset then 0
                         else if |AllDays(rows)| <= offset + limit then |AllDays(rows)| - offset else limit
    ensures forall k :: 0 <= k < |entries| ==>
              && entries[k].day in AllDays(rows) && |set d | d in AllDays(rows) && d > entries[k].day| == offset + k
              && entries[k].recordings == |RowsOn(rows, None, entries[k].day)|
              && entries[k].analysed == |RowsOn(rows, Some(analysed), entries[k].day)|
              && (entries[k].summary.Some? <==> entries[k].day in db.summaries)
              && (entries[k].day in db.summaries ==> entries[k].summary == Some(db.summaries[entries[k].day].status))
              && entries[k].stale == IsStale(db, entries[k].day)
  {
    hide DayOf, DaysOf, CountOn, RowsOn, IsStale;
    var days := DaysOf(rows);
    if days != [] {
      LaterDays(rows, 0);
    } else {
      DaysAreAll(rows);
    }
    forall k | 0 <= k < |entries|
      ensures entries[k] == FullEntry(db, rows, analysed, days[offset + k]) && days[offset + k] in days
      ensures |set d | d in AllDays(rows) && d > days[offset + k]| == offset + k
      ensures CountOn(rows, None, days[offset + k]) == |RowsOn(rows, None, days[offset + k])|
      ensures CountOn(rows, Some(analysed), days[offset + k]) == |RowsOn(rows, Some(analysed), days[offset + k])|
    {
      LaterDays(rows, offset + k);
      CountIsRows(rows, None, days[offset + k]);
      CountIsRows(rows, Some(analysed), days[offset + k]);
    }
  }

  lemma DaysAreAll(rows: seq<Row>)
    ensures AllDays(rows) == set d | d in DaysOf(rows)
  {
    hide DayOf;
  }
}
