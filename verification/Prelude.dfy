/** Small value types shared by every module. */
module Prelude {

  datatype Option<+T> = None | Some(value: T)

  /** An exception path of the program is a Failure naming the error it raises. */
  datatype Result<+T> = Success(value: T) | Failure(error: string)

  /** Places in some list, each after the one before. */
  ghost predicate Increasing(places: seq<nat>) {
    forall i, j :: 0 <= i < j < |places| ==> places[i] < places[j]
  }

  lemma NoPlaces()
    ensures Increasing([])
  {
  }

  /** Every place moved up by one. */
  lemma PlacesShifted(rest: seq<nat>, n: nat) returns (shifted: seq<nat>)
    requires Increasing(rest) && forall j :: 0 <= j < |rest| ==> rest[j] < n
    ensures Increasing(shifted) && |shifted| == |rest|
    ensures forall j :: 0 <= j < |rest| ==> shifted[j] == rest[j] + 1 <= n
    ensures forall i :: i in shifted <==> i > 0 && i - 1 in rest
  {
    shifted := seq(|rest|, j requires 0 <= j < |rest| => rest[j] + 1);
    forall i | i > 0 && i - 1 in rest
      ensures i in shifted
    {
      var j :| 0 <= j < |rest| && rest[j] == i - 1;
      assert shifted[j] == i;
    }
  }

  /** The places of a list's tail as places of the list, after its first place if that is wanted. */
  lemma PlacePrepended(rest: seq<nat>, n: nat, first: bool) returns (places: seq<nat>)
    requires Increasing(rest) && forall j :: 0 <= j < |rest| ==> rest[j] < n
    ensures Increasing(places) && forall j :: 0 <= j < |places| ==> places[j] < n + 1
    ensures |places| == |rest| + if first then 1 else 0
    ensures first ==> places[0] == 0
    ensures forall j :: 0 <= j < |rest| ==> places[if first then j + 1 else j] == rest[j] + 1
    ensures 0 in places <==> first
    ensures forall i :: 0 < i <= n ==> (i in places <==> i - 1 in rest)
  {
    var shifted := PlacesShifted(rest, n);
    if first {
      places := [0] + shifted;
      assert forall i :: i in places <==> i == 0 || i in shifted;
    } else {
      places := shifted;
    }
  }

  /** What stands at the places of the tail stands, after the first item, at those of the list. */
  lemma PlacesOfTail<T>(list: seq<T>, kept: seq<T>, rest: seq<nat>, places: seq<nat>, first: bool)
    requires list != [] && |kept| == |rest|
    requires forall j :: 0 <= j < |rest| ==> rest[j] < |list| - 1 && kept[j] == list[1..][rest[j]]
    requires |places| == |rest| + if first then 1 else 0
    requires first ==> places[0] == 0
    requires forall j :: 0 <= j < |rest| ==> places[if first then j + 1 else j] == rest[j] + 1
    ensures var all := if first then [list[0]] + kept else kept;
            |all| == |places| && forall j :: 0 <= j < |places| ==> places[j] < |list| && all[j] == list[places[j]]
  {
    var all := if first then [list[0]] + kept else kept;
    forall j | 0 <= j < |places|
      ensures places[j] < |list| && all[j] == list[places[j]]
    {
      if !(first && j == 0) {
        var k := if first then j - 1 else j;
        assert places[j] == rest[k] + 1 && kept[k] == list[1..][rest[k]];
      }
    }
  }

  /** The places of a list's front as places of the list, and its last place if that is wanted. */
  lemma PlaceAppended(front: seq<nat>, n: nat, last: bool) returns (places: seq<nat>)
    requires Increasing(front) && forall j :: 0 <= j < |front| ==> front[j] < n
    ensures Increasing(places) && forall j :: 0 <= j < |places| ==> places[j] < n + 1
    ensures |places| == |front| + if last then 1 else 0
    ensures forall j :: 0 <= j < |front| ==> places[j] == front[j]
    ensures last ==> places[|front|] == n
    ensures n in places <==> last
    ensures forall i :: 0 <= i < n ==> (i in places <==> i in front)
  {
    places := front + if last then [n] else [];
  }

  /** The parts one after the other. */
  function Flatten<T>(parts: seq<seq<T>>): seq<T> {
    if parts == [] then [] else Flatten(parts[..|parts| - 1]) + parts[|parts| - 1]
  }

  lemma FlattenNone<T>()
    ensures Flatten<T>([]) == []
  {
  }

  lemma FlattenMore<T>(parts: seq<seq<T>>, part: seq<T>)
    ensures Flatten(parts + [part]) == Flatten(parts) + part
  {
    assert (parts + [part])[..|parts|] == parts;
  }

  lemma {:induction false} FlattenHead<T>(part: seq<T>, parts: seq<seq<T>>)
    ensures Flatten([part] + parts) == part + Flatten(parts)
  {
    hide Flatten;
    FlattenNone<T>();
    if parts == [] {
      FlattenMore([], part);
      assert [part] + parts == [] + [part];
    } else {
      var front, last := parts[..|parts| - 1], parts[|parts| - 1];
      FlattenHead(part, front);
      FlattenMore([part] + front, last);
      FlattenMore(front, last);
      assert [part] + parts == ([part] + front) + [last] && parts == front + [last];
    }
  }

  lemma {:induction false} FlattenConcat<T>(a: seq<seq<T>>, b: seq<seq<T>>)
    ensures Flatten(a + b) == Flatten(a) + Flatten(b)
  {
    hide Flatten;
    FlattenNone<T>();
    if b == [] {
      assert a + b == a;
    } else {
      var front, last := b[..|b| - 1], b[|b| - 1];
      FlattenConcat(a, front);
      FlattenMore(a + front, last);
      FlattenMore(front, last);
      assert a + b == (a + front) + [last] && b == front + [last];
    }
  }
}
