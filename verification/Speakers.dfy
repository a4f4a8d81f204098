/** Who speaks in an interval, and whether several people do at once (processing/merge.py). */
module Speakers {
  import opened Prelude
  import opened Text
  import opened Sorting

  const UNKNOWN_SPEAKER := "SPEAKER_UNKNOWN"

  datatype Turn = Turn(start: real, end: real, speaker: string)

  predicate ValidTurn(t: Turn) {
    0.0 <= t.start < t.end && !Blank(t.speaker)
  }

  ghost predicate ValidTurns(turns: seq<Turn>) {
    forall i :: 0 <= i < |turns| ==> ValidTurn(turns[i])
  }

  // ----- an interval against a turn -----

  function Min(a: real, b: real): real {
    if b < a then b else a
  }

  function Max(a: real, b: real): real {
    if b > a then b else a
  }

  function Overlap(start: real, end: real, t: Turn): real {
    Max(0.0, Min(end, t.end) - Max(start, t.start))
  }

  predicate Contains(t: Turn, moment: real) {
    t.start <= moment <= t.end
  }

  function Distance(start: real, end: real, t: Turn): real {
    if t.end < start then start - t.end
    else if t.start > end then t.start - end
    else 0.0
  }

  // ----- keys -----

  predicate TextLess(a: string, b: string) {
    if b == "" then false
    else if a == "" then true
    else a[0] < b[0] || (a[0] == b[0] && TextLess(a[1..], b[1..]))
  }

  lemma {:induction false} TextLessOrders(a: string, b: string, c: string)
    ensures a == b || TextLess(a, b) || TextLess(b, a)
    ensures !(TextLess(a, b) && TextLess(b, a)) && !TextLess(a, a)
    ensures TextLess(a, b) && TextLess(b, c) ==> TextLess(a, c)
  {
    if a != "" && b != "" && c != "" {
      TextLessOrders(a[1..], b[1..], c[1..]);
      if a[0] == b[0] && a[1..] == b[1..] {
        assert a == [a[0]] + a[1..] == b;
      }
    } else if a != "" && b != "" {
      TextLessOrders(a[1..], b[1..], c);
      if a[0] == b[0] && a[1..] == b[1..] {
        assert a == [a[0]] + a[1..] == b;
      }
    } else if a != "" {
      TextLessOrders(a[1..], b, c);
    }
  }

  /** The tuple a tier sorts by. */
  datatype Key = Key(first: real, second: int, start: real, end: real, speaker: string)

  predicate KeyLess(a: Key, b: Key) {
    || a.first < b.first
    || (a.first == b.first && a.second < b.second)
    || (a.first == b.first && a.second == b.second && a.start < b.start)
    || (a.first == b.first && a.second == b.second && a.start == b.start && a.end < b.end)
    || (a.first == b.first && a.second == b.second && a.start == b.start && a.end == b.end && TextLess(a.speaker, b.speaker))
  }

  lemma KeyLessOrders(a: Key, b: Key, c: Key)
    ensures a == b || KeyLess(a, b) || KeyLess(b, a)
    ensures !(KeyLess(a, b) && KeyLess(b, a)) && !KeyLess(a, a)
    ensures KeyLess(a, b) && KeyLess(b, c) ==> KeyLess(a, c)
  {
    TextLessOrders(a.speaker, b.speaker, c.speaker);
  }

  function TimeKey(t: Turn): Key {
    Key(0.0, 0, t.start, t.end, t.speaker)
  }

  predicate TurnLe(a: Turn, b: Turn) {
    !KeyLess(TimeKey(b), TimeKey(a))
  }

  function SortTurns(turns: seq<Turn>): seq<Turn> {
    Sort(TurnLe, turns)
  }

  lemma TurnLeOrders(turns: seq<Turn>)
    ensures Orders(TurnLe, turns)
  {
    hide KeyLess;
    forall x: Turn, y: Turn, z: Turn
      ensures TurnLe(x, y) || TurnLe(y, x)
      ensures TurnLe(x, y) && TurnLe(y, x) ==> x == y
      ensures TurnLe(x, y) && TurnLe(y, z) ==> TurnLe(x, z)
    {
      KeyLessOrders(TimeKey(x), TimeKey(y), TimeKey(z));
      KeyLessOrders(TimeKey(z), TimeKey(x), TimeKey(y));
    }
  }

  // ----- choosing a speaker -----

  datatype Tier = Overlapping | Inside | Nearest

  function Midpoint(start: real, end: real): real {
    (start + end) / 2.0
  }

  predicate Candidate(tier: Tier, start: real, end: real, t: Turn) {
    match tier
    case Overlapping => Overlap(start, end, t) > 0.0
    case Inside => Contains(t, Midpoint(start, end))
    case Nearest => true
  }

  function KeyOf(tier: Tier, start: real, end: real, t: Turn): Key {
    match tier
    case Overlapping =>
      Key(-Overlap(start, end, t), if Contains(t, Midpoint(start, end)) then -1 else 0, t.start, t.end, t.speaker)
    case Inside => TimeKey(t)
    case Nearest => Key(Distance(start, end, t), 0, t.start, t.end, t.speaker)
  }

  /** The first candidate in the tier's order among the first n turns. */
  function Best(tier: Tier, start: real, end: real, turns: seq<Turn>, n: nat): Option<Turn>
    requires n <= |turns|
  {
    if n == 0 then None
    else
      var best := Best(tier, start, end, turns, n - 1);
      var t := turns[n - 1];
      if Candidate(tier, start, end, t)
         && (best.None? || KeyLess(KeyOf(tier, start, end, t), KeyOf(tier, start, end, best.value)))
      then Some(t) else best
  }

  function ChooseSpeaker(start: real, end: real, turns: seq<Turn>, tolerance: real): string {
    if turns == [] then UNKNOWN_SPEAKER
    else
      var overlapping := Best(Overlapping, start, end, turns, |turns|);
      if overlapping.Some? then overlapping.value.speaker
      else
        var inside := Best(Inside, start, end, turns, |turns|);
        if inside.Some? then inside.value.speaker
        else
          var nearest := Best(Nearest, start, end, turns, |turns|);
          if nearest.Some? && Distance(start, end, nearest.value) <= tolerance then nearest.value.speaker
          else UNKNOWN_SPEAKER
  }

  /** t is a candidate and no candidate comes before it. */
  ghost predicate Least(tier: Tier, start: real, end: real, turns: seq<Turn>, n: nat, t: Turn)
    requires n <= |turns|
  {
    && t in turns && Candidate(tier, start, end, t)
    && forall i :: 0 <= i < n && Candidate(tier, start, end, turns[i]) ==>
         !KeyLess(KeyOf(tier, start, end, turns[i]), KeyOf(tier, start, end, t))
  }

  lemma {:induction false} BestIsLeast(tier: Tier, start: real, end: real, turns: seq<Turn>, n: nat)
    requires n <= |turns|
    ensures var best := Best(tier, start, end, turns, n);
            && (best.Some? ==> Least(tier, start, end, turns, n, best.value))
            && (best.None? ==> forall i :: 0 <= i < n ==> !Candidate(tier, start, end, turns[i]))
  {
    hide KeyLess, Candidate, KeyOf;
    if n > 0 {
      BestIsLeast(tier, start, end, turns, n - 1);
      var best := Best(tier, start, end, turns, n - 1);
      var t := turns[n - 1];
      KeyLessOrders(KeyOf(tier, start, end, t), KeyOf(tier, start, end, t), KeyOf(tier, start, end, t));
      if best.Some? {
        forall i | 0 <= i < n - 1 && Candidate(tier, start, end, turns[i])
          ensures KeyLess(KeyOf(tier, start, end, t), KeyOf(tier, start, end, best.value)) ==>
                    !KeyLess(KeyOf(tier, start, end, turns[i]), KeyOf(tier, start, end, t))
        {
          KeyLessOrders(KeyOf(tier, start, end, turns[i]), KeyOf(tier, start, end, t), KeyOf(tier, start, end, best.value));
        }
      }
    }
  }

  /** Two least candidates of a tier are the same turn. */
  lemma LeastIsUnique(tier: Tier, start: real, end: real, turns: seq<Turn>, a: Turn, b: Turn)
    requires Least(tier, start, end, turns, |turns|, a) && Least(tier, start, end, turns, |turns|, b)
    ensures a == b
  {
    hide KeyLess;
    KeyLessOrders(KeyOf(tier, start, end, a), KeyOf(tier, start, end, b), KeyOf(tier, start, end, a));
  }

  /** The rule without the code's tiers of fallback: the longest overlap, ties broken by holding the midpoint,
      then by time and speaker; failing any overlap, the nearest turn in reach. */
  ghost predicate IsChoice(start: real, end: real, turns: seq<Turn>, tolerance: real, speaker: string) {
    if exists t :: t in turns && Overlap(start, end, t) > 0.0 then
      exists t :: Least(Overlapping, start, end, turns, |turns|, t) && t.speaker == speaker
    else if exists t :: t in turns && Distance(start, end, t) <= tolerance then
      exists t :: Least(Nearest, start, end, turns, |turns|, t) && t.speaker == speaker
    else speaker == UNKNOWN_SPEAKER
  }

  /** Without an overlap, only a zero-length interval has its midpoint in a turn, and then at distance zero. */
  lemma MidpointNeedsNoLength(start: real, end: real, t: Turn)
    requires start <= end && ValidTurn(t) && Overlap(start, end, t) <= 0.0
    ensures Contains(t, Midpoint(start, end)) ==> start == end
    ensures start == end ==> (Contains(t, Midpoint(start, end)) <==> Distance(start, end, t) == 0.0)
  {
  }

  /** So the midpoint tier changes nothing: where it picks a turn, the nearest-turn tier picks the same one. */
  lemma MidpointTierIsSubsumed(start: real, end: real, turns: seq<Turn>, t: Turn)
    requires start <= end && ValidTurns(turns)
    requires forall u :: u in turns ==> Overlap(start, end, u) <= 0.0
    requires Least(Inside, start, end, turns, |turns|, t)
    ensures start == end && Distance(start, end, t) == 0.0
    ensures Least(Nearest, start, end, turns, |turns|, t)
  {
    hide Overlap, Midpoint, Contains, Distance;
    forall u | u in turns
      ensures Contains(u, Midpoint(start, end)) ==> start == end
      ensures start == end ==> (Contains(u, Midpoint(start, end)) <==> Distance(start, end, u) == 0.0)
      ensures Distance(start, end, u) >= 0.0
    {
      MidpointNeedsNoLength(start, end, u);
      DistanceNonNegative(start, end, u);
    }
    forall i | 0 <= i < |turns|
      ensures !KeyLess(KeyOf(Nearest, start, end, turns[i]), KeyOf(Nearest, start, end, t))
    {
      assert turns[i] in turns;
    }
  }

  lemma DistanceNonNegative(start: real, end: real, t: Turn)
    ensures Distance(start, end, t) >= 0.0
  {
  }

  lemma LeastIsNearest(start: real, end: real, turns: seq<Turn>, t: Turn)
    requires Least(Nearest, start, end, turns, |turns|, t)
    ensures forall u :: u in turns ==> Distance(start, end, t) <= Distance(start, end, u)
  {
    hide Distance;
    forall u | u in turns
      ensures Distance(start, end, t) <= Distance(start, end, u)
    {
      var i :| 0 <= i < |turns| && turns[i] == u;
      assert Candidate(Nearest, start, end, turns[i]);
    }
  }

  /** The code's choice is exactly the one the rule allows. */
  lemma ChoiceIsExact(start: real, end: real, turns: seq<Turn>, tolerance: real, speaker: string)
    requires start <= end && ValidTurns(turns) && tolerance >= 0.0
    ensures ChooseSpeaker(start, end, turns, tolerance) == speaker <==> IsChoice(start, end, turns, tolerance, speaker)
  {
    hide Overlap, Distance, Least, Contains, Midpoint, Best;
    BestIsLeast(Overlapping, start, end, turns, |turns|);
    BestIsLeast(Inside, start, end, turns, |turns|);
    BestIsLeast(Nearest, start, end, turns, |turns|);
    var overlapping := Best(Overlapping, start, end, turns, |turns|);
    var inside := Best(Inside, start, end, turns, |turns|);
    var nearest := Best(Nearest, start, end, turns, |turns|);
    if overlapping.Some? {
      LeastIsIn(Overlapping, start, end, turns, overlapping.value);
      LeastDecides(Overlapping, start, end, turns, overlapping.value, speaker);
    } else {
      NoneOverlaps(start, end, turns);
      if nearest.Some? {
        LeastIsIn(Nearest, start, end, turns, nearest.value);
        LeastIsNearest(start, end, turns, nearest.value);
        LeastDecides(Nearest, start, end, turns, nearest.value, speaker);
        if inside.Some? {
          MidpointTierIsSubsumed(start, end, turns, inside.value);
          LeastIsIn(Nearest, start, end, turns, inside.value);
          LeastIsUnique(Nearest, start, end, turns, inside.value, nearest.value);
        }
      } else {
        if turns != [] {
          NearestExists(start, end, turns);
        }
      }
    }
  }

  lemma NearestExists(start: real, end: real, turns: seq<Turn>)
    requires turns != []
    ensures Best(Nearest, start, end, turns, |turns|).Some?
  {
    BestIsLeast(Nearest, start, end, turns, |turns|);
    assert Candidate(Nearest, start, end, turns[0]);
  }

  lemma LeastIsIn(tier: Tier, start: real, end: real, turns: seq<Turn>, t: Turn)
    requires Least(tier, start, end, turns, |turns|, t)
    ensures t in turns && Candidate(tier, start, end, t)
  {
  }

  lemma LeastDecides(tier: Tier, start: real, end: real, turns: seq<Turn>, t: Turn, speaker: string)
    requires Least(tier, start, end, turns, |turns|, t)
    ensures t.speaker == speaker <==> exists u :: Least(tier, start, end, turns, |turns|, u) && u.speaker == speaker
  {
    forall u | Least(tier, start, end, turns, |turns|, u)
      ensures u == t
    {
      LeastIsUnique(tier, start, end, turns, t, u);
    }
  }

  lemma NoneOverlaps(start: real, end: real, turns: seq<Turn>)
    requires forall i :: 0 <= i < |turns| ==> !Candidate(Overlapping, start, end, turns[i])
    ensures forall t :: t in turns ==> Overlap(start, end, t) <= 0.0
  {
  }

  // ----- simultaneous speech -----

  /** The turn lasts through all of this part. */
  predicate Spans(t: Turn, from: real, to: real) {
    t.start <= from && to <= t.end
  }

  /** Two people speak during the same positive-length part of the interval, or at its one moment. */
  ghost predicate Simultaneous(start: real, end: real, turns: seq<Turn>) {
    if start == end then
      exists a, b :: a in turns && b in turns && a.speaker != b.speaker && Contains(a, start) && Contains(b, start)
    else
      exists a, b, from, to :: SharePart(start, end, turns, a, b, from, to)
  }

  predicate SharePart(start: real, end: real, turns: seq<Turn>, a: Turn, b: Turn, from: real, to: real) {
    && a in turns && b in turns && a.speaker != b.speaker
    && start <= from < to <= end && Spans(a, from, to) && Spans(b, from, to)
  }

  function SharedStart(start: real, a: Turn, b: Turn): real {
    Max(Max(start, a.start), b.start)
  }

  function SharedEnd(end: real, a: Turn, b: Turn): real {
    Min(Min(end, a.end), b.end)
  }

  lemma SharedIffPart(start: real, end: real, turns: seq<Turn>, a: Turn, b: Turn)
    requires a in turns && b in turns && a.speaker != b.speaker
    ensures SharedEnd(end, a, b) > SharedStart(start, a, b) <==> exists from, to :: SharePart(start, end, turns, a, b, from, to)
    ensures SharedEnd(end, a, b) > SharedStart(start, a, b) ==> Overlap(start, end, a) > 0.0 && Overlap(start, end, b) > 0.0
  {
    if SharedEnd(end, a, b) > SharedStart(start, a, b) {
      assert SharePart(start, end, turns, a, b, SharedStart(start, a, b), SharedEnd(end, a, b));
    }
  }

  method Relevant(start: real, end: real, turns: seq<Turn>) returns (relevant: seq<Turn>)
    ensures forall t :: t in relevant <==> t in turns && Overlap(start, end, t) > 0.0
  {
    relevant := [];
    for i := 0 to |turns|
      invariant forall t :: t in relevant <==> t in turns[..i] && Overlap(start, end, t) > 0.0
    {
      if Overlap(start, end, turns[i]) > 0.0 {
        relevant := relevant + [turns[i]];
      }
    }
  }

  method LabelsAt(moment: real, turns: seq<Turn>) returns (labels: set<string>)
    ensures forall l :: l in labels <==> exists t :: t in turns && Contains(t, moment) && t.speaker == l
  {
    labels := {};
    for i := 0 to |turns|
      invariant forall l :: l in labels <==> exists t :: t in turns[..i] && Contains(t, moment) && t.speaker == l
    {
      if Contains(turns[i], moment) {
        labels := labels + {turns[i].speaker};
      }
    }
  }

  /** Comparing the relevant turns pair by pair decides exactly that. */
  method HasSimultaneousSpeech(start: real, end: real, turns: seq<Turn>) returns (simultaneous: bool)
    requires start <= end
    ensures simultaneous == Simultaneous(start, end, turns)
  {
    hide SharePart, SharedStart, SharedEnd, Overlap, Contains;
    if end == start {
      var labels := LabelsAt(start, turns);
      TwoLabels(start, turns, labels);
      return |labels| > 1;
    }
    var relevant := Relevant(start, end, turns);
    for i := 0 to |relevant|
      invariant NoneShare(start, end, relevant, i)
    {
      for j := i + 1 to |relevant|
        invariant NoneShare(start, end, relevant, i)
        invariant forall k :: i < k < j ==> !Share(start, end, relevant[i], relevant[k])
      {
        var first, second := relevant[i], relevant[j];
        if first.speaker != second.speaker && SharedEnd(end, first, second) > SharedStart(start, first, second) {
          SharedIffPart(start, end, turns, first, second);
          return true;
        }
      }
    }
    NoneShareMeans(start, end, turns, relevant);
    return false;
  }

  predicate Share(start: real, end: real, a: Turn, b: Turn) {
    a.speaker != b.speaker && SharedEnd(end, a, b) > SharedStart(start, a, b)
  }

  ghost predicate NoneShare(start: real, end: real, relevant: seq<Turn>, n: nat) {
    forall i, j :: 0 <= i < n && i < j < |relevant| ==> !Share(start, end, relevant[i], relevant[j])
  }

  lemma ShareIsSeen(start: real, end: real, relevant: seq<Turn>, a: Turn, b: Turn)
    requires a in relevant && b in relevant && Share(start, end, a, b)
    ensures !NoneShare(start, end, relevant, |relevant|)
  {
    var i :| 0 <= i < |relevant| && relevant[i] == a;
    var j :| 0 <= j < |relevant| && relevant[j] == b;
    if i < j {
      assert Share(start, end, relevant[i], relevant[j]);
    } else {
      assert Share(start, end, relevant[j], relevant[i]);
    }
  }

  lemma NoneShareMeans(start: real, end: real, turns: seq<Turn>, relevant: seq<Turn>)
    requires forall t :: t in relevant <==> t in turns && Overlap(start, end, t) > 0.0
    requires NoneShare(start, end, relevant, |relevant|)
    ensures forall a, b, from, to :: !SharePart(start, end, turns, a, b, from, to)
  {
    hide Overlap, NoneShare;
    forall a, b, from, to
      ensures !SharePart(start, end, turns, a, b, from, to)
    {
      if SharePart(start, end, turns, a, b, from, to) {
        SharedIffPart(start, end, turns, a, b);
        ShareIsSeen(start, end, relevant, a, b);
      }
    }
  }

  lemma TwoLabels(moment: real, turns: seq<Turn>, labels: set<string>)
    requires forall l :: l in labels <==> exists t :: t in turns && Contains(t, moment) && t.speaker == l
    ensures |labels| > 1 <==>
              exists a, b :: a in turns && b in turns && a.speaker != b.speaker && Contains(a, moment) && Contains(b, moment)
  {
    hide Contains;
    if a, b :| a in turns && b in turns && a.speaker != b.speaker && Contains(a, moment) && Contains(b, moment) {
      assert {a.speaker, b.speaker} <= labels;
      MoreThanOne(labels, a.speaker, b.speaker);
    }
    if |labels| > 1 {
      var l :| l in labels;
      assert |labels - {l}| == |labels| - 1;
      var m :| m in labels - {l};
      var a :| a in turns && Contains(a, moment) && a.speaker == l;
      var b :| b in turns && Contains(b, moment) && b.speaker == m;
    }
  }

  lemma MoreThanOne<T>(s: set<T>, a: T, b: T)
    requires a in s && b in s && a != b
    ensures |s| > 1
  {
    assert |s - {a}| == |s| - 1;
    assert b in s - {a};
  }
}
