/** The login failure limiter against the plain history of failures (web_auth/service.py). */
module Limiter {
  import opened Prelude

  datatype Event = Failed(key: string, at: real) | Succeeded(key: string) | Evicted(key: string)

  /** The key's failures since it last succeeded or was evicted. */
  function Since(history: seq<Event>, key: string): seq<real> {
    if history == [] then []
    else
      var before := Since(history[..|history| - 1], key);
      var event := history[|history| - 1];
      if event.key != key then before else if event.Failed? then before + [event.at] else []
  }

  /** The key's failures since it last succeeded, whatever the limiter still remembers. */
  function Failures(history: seq<Event>, key: string): seq<real> {
    if history == [] then []
    else
      var before := Failures(history[..|history| - 1], key);
      var event := history[|history| - 1];
      if event.key != key || event.Evicted? then before else if event.Failed? then before + [event.at] else []
  }

  /** The key was not evicted since it last succeeded. */
  predicate Kept(history: seq<Event>, key: string) {
    history == []
    || history[|history| - 1] == Succeeded(key)
    || (history[|history| - 1] != Evicted(key) && Kept(history[..|history| - 1], key))
  }

  lemma {:induction false} KeptRemembersAll(history: seq<Event>, key: string)
    requires Kept(history, key)
    ensures Since(history, key) == Failures(history, key)
  {
    if history != [] && history[|history| - 1] != Succeeded(key) {
      KeptRemembersAll(history[..|history| - 1], key);
    }
  }

  lemma Happens(history: seq<Event>, event: Event, key: string)
    ensures Since(history + [event], key) ==
            if event.key != key then Since(history, key)
            else if event.Failed? then Since(history, key) + [event.at] else []
  {
    assert (history + [event])[..|history|] == history;
  }

  /** The moments after the cutoff. */
  function Recent(moments: seq<real>, cutoff: real): seq<real> {
    if moments == [] then []
    else
      var last := moments[|moments| - 1];
      Recent(moments[..|moments| - 1], cutoff) + if last > cutoff then [last] else []
  }

  predicate Ascending(moments: seq<real>) {
    forall i, j :: 0 <= i < j < |moments| ==> moments[i] <= moments[j]
  }

  lemma {:induction false} RecentIsTail(moments: seq<real>, cutoff: real, n: nat)
    requires n <= |moments|
    requires forall i :: 0 <= i < n ==> moments[i] <= cutoff
    requires forall i :: n <= i < |moments| ==> moments[i] > cutoff
    ensures Recent(moments, cutoff) == moments[n..]
    decreases |moments|
  {
    if moments != [] {
      var front := moments[..|moments| - 1];
      if n == |moments| {
        RecentIsTail(front, cutoff, n - 1);
        assert front[n - 1..] == [] == moments[n..];
      } else {
        RecentIsTail(front, cutoff, n);
        assert moments[n..] == front[n..] + [moments[|moments| - 1]];
      }
    }
  }

  // ----- the ordered dictionary -----

  function Without(order: seq<string>, key: string): (r: seq<string>)
    ensures forall k :: k in r <==> k in order && k != key
  {
    if order == [] then []
    else
      var last := order[|order| - 1];
      assert order == order[..|order| - 1] + [last];
      Without(order[..|order| - 1], key) + if last == key then [] else [last]
  }

  lemma {:induction false} WithoutNothing(order: seq<string>, key: string)
    requires key !in order
    ensures Without(order, key) == order
  {
    if order != [] {
      WithoutNothing(order[..|order| - 1], key);
    }
  }

  /** Taking a key out again changes nothing, whether or not it was put at the end meanwhile. */
  lemma WithoutAgain(order: seq<string>, key: string, tail: seq<string>)
    requires tail == [] || tail == [key]
    ensures Without(Without(order, key) + tail, key) == Without(order, key)
  {
    var rest := Without(order, key);
    WithoutNothing(rest, key);
    if tail == [] {
      assert rest + tail == rest;
    } else {
      assert (rest + [key])[..|rest|] == rest;
    }
  }

  predicate Distinct(order: seq<string>) {
    forall i, j :: 0 <= i < j < |order| ==> order[i] != order[j]
  }

  lemma {:induction false} WithoutShrinks(order: seq<string>, key: string)
    requires Distinct(order)
    ensures Distinct(Without(order, key))
    ensures |Without(order, key)| == |order| - if key in order then 1 else 0
  {
    if order != [] {
      var last := order[|order| - 1];
      assert order == order[..|order| - 1] + [last];
      WithoutShrinks(order[..|order| - 1], key);
      assert last !in order[..|order| - 1];
    }
  }

  /** The order lists each stored key once. */
  ghost predicate Agrees(order: seq<string>, failures: map<string, seq<real>>) {
    Distinct(order) && forall k :: k in order <==> k in failures
  }

  lemma MovedToEnd(order: seq<string>, failures: map<string, seq<real>>, key: string, moments: seq<real>)
    requires Agrees(order, failures)
    ensures Agrees(Without(order, key) + [key], failures[key := moments])
    ensures |Without(order, key)| + 1 == |order| + if key in failures then 0 else 1
  {
    hide Without;
    WithoutShrinks(order, key);
  }

  lemma Removed(order: seq<string>, failures: map<string, seq<real>>, key: string)
    requires Agrees(order, failures)
    ensures Agrees(Without(order, key), failures - {key}) && |Without(order, key)| <= |order|
  {
    hide Without;
    WithoutShrinks(order, key);
  }

  lemma OldestDropped(order: seq<string>, failures: map<string, seq<real>>)
    requires Agrees(order, failures) && order != []
    ensures Agrees(order[1..], failures - {order[0]})
  {
    assert order == [order[0]] + order[1..];
    forall k
      ensures k in order[1..] <==> k in order && k != order[0]
    {
    }
  }

  /** So a bound on the order is a bound on the stored keys. */
  lemma {:induction false} KeyCount(order: seq<string>, failures: map<string, seq<real>>)
    requires Agrees(order, failures)
    ensures |failures| == |order|
    decreases |order|
  {
    if order == [] {
      assert failures == map[];
    } else {
      OldestDropped(order, failures);
      KeyCount(order[1..], failures - {order[0]});
      assert failures.Keys == (failures - {order[0]}).Keys + {order[0]};
      assert |failures| == |failures.Keys| && |failures - {order[0]}| == |(failures - {order[0]}).Keys|;
    }
  }

  function Stored(failures: map<string, seq<real>>, key: string): seq<real> {
    if key in failures then failures[key] else []
  }

  /** stored is all that happened except a beginning that is out of the window. */
  ghost predicate Remembers(stored: seq<real>, all: seq<real>, cutoff: real) {
    && |stored| <= |all| && stored == all[|all| - |stored|..]
    && forall i :: 0 <= i < |all| - |stored| ==> all[i] <= cutoff
  }

  ghost predicate Tracks(failures: map<string, seq<real>>, history: seq<Event>, clock: real, window: real) {
    forall key :: TracksKey(failures, history, clock, window, key)
  }

  ghost predicate TracksKey(failures: map<string, seq<real>>, history: seq<Event>, clock: real, window: real, key: string) {
    && Remembers(Stored(failures, key), Since(history, key), clock - window)
    && Ascending(Since(history, key))
    && forall i :: 0 <= i < |Since(history, key)| ==> Since(history, key)[i] <= clock
  }

  lemma TracksLater(failures: map<string, seq<real>>, history: seq<Event>, clock: real, later: real, window: real)
    requires Tracks(failures, history, clock, window) && clock <= later
    ensures Tracks(failures, history, later, window)
  {
    hide Since;
    forall key
      ensures TracksKey(failures, history, later, window, key)
    {
      assert TracksKey(failures, history, clock, window, key);
    }
  }

  /** Dropping the stored moments at or before the cutoff leaves exactly the recent ones of all that happened. */
  lemma PrunedIsRecent(stored: seq<real>, all: seq<real>, clock: real, cutoff: real, active: seq<real>)
    requires Remembers(stored, all, clock) && clock <= cutoff && Ascending(all)
    requires |active| <= |stored| && active == stored[|stored| - |active|..]
    requires forall i :: 0 <= i < |stored| - |active| ==> stored[i] <= cutoff
    requires active == [] || active[0] > cutoff
    ensures active == Recent(all, cutoff) && Remembers(active, all, cutoff)
  {
    var n := |all| - |active|;
    assert active == all[n..];
    forall i | 0 <= i < n
      ensures all[i] <= cutoff
    {
      if i >= |all| - |stored| {
        assert all[i] == stored[i - (|all| - |stored|)];
      }
    }
    forall i | n <= i < |all|
      ensures all[i] > cutoff
    {
      assert all[n] == active[0];
    }
    RecentIsTail(all, cutoff, n);
  }

  /** What one key's change does to the tracking. */
  lemma TracksAfter(failures: map<string, seq<real>>, history: seq<Event>, after: map<string, seq<real>>, history': seq<Event>,
                    clock: real, window: real, key: string)
    requires Tracks(failures, history, clock, window) && TracksKey(after, history', clock, window, key)
    requires forall k :: k != key ==> Stored(after, k) == Stored(failures, k) && Since(history', k) == Since(history, k)
    ensures Tracks(after, history', clock, window)
  {
    hide Since, Stored;
    forall k
      ensures TracksKey(after, history', clock, window, k)
    {
      assert TracksKey(failures, history, clock, window, k);
    }
  }

  lemma PrunedTracks(failures: map<string, seq<real>>, history: seq<Event>, clock: real, now: real, window: real,
                     key: string, active: seq<real>)
    requires Tracks(failures, history, clock, window) && clock <= now
    requires |active| <= |Stored(failures, key)| && active == Stored(failures, key)[|Stored(failures, key)| - |active|..]
    requires forall i :: 0 <= i < |Stored(failures, key)| - |active| ==> Stored(failures, key)[i] <= now - window
    requires active == [] || active[0] > now - window
    ensures active == Recent(Since(history, key), now - window)
    ensures Tracks(if active == [] then failures - {key} else failures[key := active], history, now, window)
  {
    hide Since, Recent;
    assert TracksKey(failures, history, clock, window, key);
    PrunedIsRecent(Stored(failures, key), Since(history, key), clock - window, now - window, active);
    TracksLater(failures, history, clock, now, window);
    assert TracksKey(failures, history, now, window, key);
    TracksAfter(failures, history, if active == [] then failures - {key} else failures[key := active], history, now, window, key);
  }

  lemma ClearedTracks(failures: map<string, seq<real>>, history: seq<Event>, event: Event, clock: real, window: real, key: string)
    requires Tracks(failures, history, clock, window) && (event == Succeeded(key) || event == Evicted(key))
    ensures Tracks(failures - {key}, history + [event], clock, window)
  {
    forall k
      ensures Since(history + [event], k) == if k == key then [] else Since(history, k)
    {
      Happens(history, event, k);
    }
    TracksAfter(failures, history, failures - {key}, history + [event], clock, window, key);
  }

  lemma OneMoreRemembered(stored: seq<real>, all: seq<real>, now: real, cutoff: real)
    requires Remembers(stored, all, cutoff)
    ensures Remembers(stored + [now], all + [now], cutoff)
  {
    var n := |all| - |stored|;
    assert (all + [now])[n..] == all[n..] + [now];
  }

  lemma FailedTracks(failures: map<string, seq<real>>, history: seq<Event>, active: seq<real>, now: real, window: real, key: string)
    requires Tracks(failures, history, now, window) && active == Stored(failures, key)
    ensures Tracks(failures[key := active + [now]], history + [Failed(key, now)], now, window)
  {
    hide Since, Remembers;
    var event := Failed(key, now);
    forall k
      ensures Since(history + [event], k) == if k == key then Since(history, k) + [now] else Since(history, k)
    {
      Happens(history, event, k);
    }
    assert TracksKey(failures, history, now, window, key);
    OneMoreRemembered(active, Since(history, key), now, now - window);
    TracksAfter(failures, history, failures[key := active + [now]], history + [event], now, window, key);
  }

  /** One failure was added, and at most one other key's memory went to make room. */
  ghost predicate FailedThen(before: seq<Event>, after: seq<Event>, key: string, now: real) {
    || after == before + [Failed(key, now)]
    || exists k :: k != key && after == before + [Failed(key, now), Evicted(k)]
  }

  /** The key becomes the latest one, and where that makes one too many, the one untouched the longest goes. */
  ghost predicate Recency(before: seq<string>, after: seq<string>, was: seq<Event>, history: seq<Event>, key: string,
                          now: real, maxEntries: nat)
  {
    var moved := Without(before, key) + [key];
    if |moved| > maxEntries then after == moved[1..] && history == was + [Failed(key, now), Evicted(moved[0])]
    else after == moved && history == was + [Failed(key, now)]
  }

  /** Every other key still held has the failures it had. */
  ghost predicate OthersKept(before: map<string, seq<real>>, after: map<string, seq<real>>, order: seq<string>, key: string) {
    forall k :: k in order && k != key ==> Stored(after, k) == Stored(before, k)
  }

  lemma KeyIsNotOldest(order: seq<string>, failures: map<string, seq<real>>, key: string)
    requires Agrees(order, failures) && |order| >= 2 && order[|order| - 1] == key
    ensures order[0] != key
  {
  }

  // ----- Retry-After -----

  /** Rounding to the nearest whole number, halves to the even one. */
  function Round(x: real): (n: int)
    ensures x - 0.5 <= n as real <= x + 0.5
  {
    var f := x.Floor;
    var d := x - f as real;
    if d < 0.5 then f
    else if d > 0.5 then f + 1
    else if f % 2 == 0 then f else f + 1
  }

  /** Rounding goes below x: its fraction is under a half, or is a half above an even number. */
  predicate RoundsDown(x: real) {
    var fraction := x - x.Floor as real;
    0.0 < fraction < 0.5 || (fraction == 0.5 && x.Floor % 2 == 0)
  }

  lemma RoundIsBelow(x: real)
    ensures (Round(x) as real) < x <==> RoundsDown(x)
  {
  }

  /** When the oldest of these failures leaves the window, counted from now. */
  function OldestLeaves(active: seq<real>, window: real, now: real): real
    requires active != []
  {
    active[0] + window - now
  }

  /** The header's value: the wait for the oldest failure, in whole seconds and at least one. */
  function RetryAfter(active: seq<real>, window: real, now: real): int
    requires active != []
  {
    var wait := Round(OldestLeaves(active, window, now));
    if wait > 1 then wait else 1
  }

  /** When so many failures have left that fewer than maxAttempts are, counted from now. */
  function TrueWait(active: seq<real>, maxAttempts: nat, window: real, now: real): real
    requires 1 <= maxAttempts <= |active|
  {
    active[|active| - maxAttempts] + window - now
  }

  /** How long rounding, and the minimum of a second, let the caller wait beyond the oldest failure; negative if less. */
  function Slack(active: seq<real>, window: real, now: real): real
    requires active != []
  {
    RetryAfter(active, window, now) as real - OldestLeaves(active, window, now)
  }

  /** The recent moments are the tail of an ascending history. */
  lemma RecentSplits(moments: seq<real>, cutoff: real) returns (n: nat)
    requires Ascending(moments)
    ensures n <= |moments| && Recent(moments, cutoff) == moments[n..]
    ensures forall i :: 0 <= i < |moments| ==> (moments[i] > cutoff <==> n <= i)
  {
    n := 0;
    while n < |moments| && moments[n] <= cutoff
      invariant n <= |moments| && forall i :: 0 <= i < n ==> moments[i] <= cutoff
    {
      n := n + 1;
    }
    RecentIsTail(moments, cutoff, n);
  }

  /** Without another failure, the key is allowed again from exactly the true wait on. */
  lemma AllowedFromTrueWait(all: seq<real>, maxAttempts: nat, window: real, now: real, later: real)
    requires Ascending(all) && now <= later && 1 <= maxAttempts <= |Recent(all, now - window)|
    ensures |Recent(all, later - window)| < maxAttempts
       <==> later - now >= TrueWait(Recent(all, now - window), maxAttempts, window, now)
  {
    hide Recent;
    var n := RecentSplits(all, now - window);
    var m := RecentSplits(all, later - window);
    var k := |all| - maxAttempts;
    assert all[n..][k - n] == all[k];
  }

  /** The header against the oldest failure's wait: within half a second of it, or the minimum of one second. */
  lemma RetryAfterBounds(active: seq<real>, window: real, now: real)
    requires active != []
    ensures RetryAfter(active, window, now) >= 1
    ensures -0.5 <= Slack(active, window, now)
    ensures Slack(active, window, now) <= 0.5 || RetryAfter(active, window, now) == 1
    ensures Slack(active, window, now) < 0.0 <==>
              OldestLeaves(active, window, now) > 1.0 && RoundsDown(OldestLeaves(active, window, now))
  {
    RoundIsBelow(OldestLeaves(active, window, now));
  }

  /** Waiting as long as told is enough if and only if the slack covers the time from the oldest failure to the
      one that has to leave; with exactly maxAttempts failures that is when rounding did not go down, or the
      wait was within the minimum. */
  lemma RetryAfterSuffices(all: seq<real>, maxAttempts: nat, window: real, now: real)
    requires Ascending(all) && 1 <= maxAttempts <= |Recent(all, now - window)|
    ensures var active := Recent(all, now - window);
            var told := now + RetryAfter(active, window, now) as real;
            && (|Recent(all, told - window)| < maxAttempts <==>
                  active[|active| - maxAttempts] - active[0] <= Slack(active, window, now))
            && (|active| == maxAttempts ==>
                  (|Recent(all, told - window)| < maxAttempts <==>
                     OldestLeaves(active, window, now) <= 1.0 || !RoundsDown(OldestLeaves(active, window, now))))
  {
    hide Recent, RoundsDown, Round;
    var active := Recent(all, now - window);
    RetryAfterBounds(active, window, now);
    AllowedFromTrueWait(all, maxAttempts, window, now, now + RetryAfter(active, window, now) as real);
  }

  datatype Verdict = Allowed | Refused(retryAfter: int)

  class LoginRateLimiter {
    const maxAttempts: nat
    const window: real
    const maxEntries: nat
    var failures: map<string, seq<real>>
    var order: seq<string>
    ghost var history: seq<Event>
    ghost var clock: real

    ghost predicate Valid()
      reads this
    {
      && maxAttempts >= 1 && window > 0.0 && maxEntries >= 1
      && Agrees(order, failures) && |order| <= maxEntries
      && Tracks(failures, history, clock, window)
    }

    constructor (maxAttempts: nat, window: real, maxEntries: nat)
      requires maxAttempts >= 1 && window > 0.0 && maxEntries >= 1
      ensures Valid() && history == [] && failures == map[] && clock == 0.0
      ensures this.maxAttempts == maxAttempts && this.window == window && this.maxEntries == maxEntries
    {
      this.maxAttempts, this.window, this.maxEntries := maxAttempts, window, maxEntries;
      failures, order, history, clock := map[], [], [], 0.0;
    }

    /** Drops what left the window and moves the key to the end of the order, or out of it. */
    method ActiveFailures(key: string, now: real) returns (active: seq<real>)
      requires Valid() && now >= clock
      modifies `failures, `order, `clock
      ensures Valid() && clock == now
      ensures active == Stored(failures, key) == Recent(Since(history, key), now - window)
      ensures forall k :: k != key ==> Stored(failures, k) == old(Stored(failures, k))
      ensures order == Without(old(order), key) + if active == [] then [] else [key]
    {
      hide Since, Recent, Without, Agrees, Tracks;
      active := Stored(failures, key);
      ghost var stored := active;
      var cutoff := now - window;
      while active != [] && active[0] <= cutoff
        invariant |active| <= |stored| && active == stored[|stored| - |active|..]
        invariant forall i :: 0 <= i < |stored| - |active| ==> stored[i] <= cutoff
      {
        active := active[1..];
      }
      PrunedTracks(failures, history, clock, now, window, key, active);
      MovedToEnd(order, failures, key, active);
      Removed(order, failures, key);
      if active != [] {
        failures := failures[key := active];
        order := Without(order, key) + [key];
      } else {
        failures := failures - {key};
        order := Without(order, key);
      }
      clock := now;
    }

    /** Refuses exactly when too many failures fall in the window that ends now. */
    method EnsureAllowed(key: string, now: real) returns (verdict: Verdict)
      requires Valid() && now >= clock
      modifies `failures, `order, `clock
      ensures Valid() && clock == now
      ensures OthersKept(old(failures), failures, order, key)
      ensures order == Without(old(order), key) + if Recent(Since(history, key), now - window) == [] then [] else [key]
      ensures verdict.Refused? <==> |Recent(Since(history, key), now - window)| >= maxAttempts
      ensures Kept(history, key) ==> (verdict.Refused? <==> |Recent(Failures(history, key), now - window)| >= maxAttempts)
      ensures verdict.Refused? ==>
                var active := Recent(Since(history, key), now - window);
                && verdict.retryAfter == RetryAfter(active, window, now)
                && (verdict.retryAfter as real >= TrueWait(active, maxAttempts, window, now) <==>
                      |Recent(Since(history, key), now + verdict.retryAfter as real - window)| < maxAttempts)
    {
      hide Round, Recent, Since;
      var active := ActiveFailures(key, now);
      if Kept(history, key) {
        KeptRemembersAll(history, key);
      }
      if |active| >= maxAttempts {
        assert TracksKey(failures, history, clock, window, key);
        var wait := Round(window - (now - active[0]));
        wait := if wait > 1 then wait else 1;
        assert wait == RetryAfter(active, window, now);
        AllowedFromTrueWait(Since(history, key), maxAttempts, window, now, now + wait as real);
        return Refused(wait);
      }
      return Allowed;
    }

    /** Records one more failure; the key it is for is never the one dropped to stay within the bound. */
    method RecordFailure(key: string, now: real)
      requires Valid() && now >= clock
      modifies this
      ensures Valid() && clock == now
      ensures key in failures && Since(history, key) == Since(old(history), key) + [now]
      ensures FailedThen(old(history), history, key, now)
      ensures Recency(old(order), order, old(history), history, key, now, maxEntries)
      ensures OthersKept(old(failures), failures, order, key)
    {
      hide Since, Tracks, Agrees, Without, Recent;
      var active := ActiveFailures(key, now);
      WithoutAgain(old(order), key, if active == [] then [] else [key]);
      FailedTracks(failures, history, active, now, window, key);
      Happens(history, Failed(key, now), key);
      MovedToEnd(order, failures, key, active + [now]);
      active := active + [now];
      failures := failures[key := active];
      order := Without(order, key) + [key];
      history := history + [Failed(key, now)];
      ghost var moved := order;
      while |order| > maxEntries
        invariant order != [] && order[|order| - 1] == key && |order| <= maxEntries + 1 && key in failures
        invariant Agrees(order, failures) && clock == now
        invariant Tracks(failures, history, clock, window) && Since(history, key) == Since(old(history), key) + [now]
        invariant if |order| > maxEntries then history == old(history) + [Failed(key, now)] && order == moved
                  else FailedThen(old(history), history, key, now)
        invariant |order| <= maxEntries ==> Recency(old(order), order, old(history), history, key, now, maxEntries)
        invariant OthersKept(old(failures), failures, order, key)
        decreases |order|
      {
        var oldest := order[0];
        KeyIsNotOldest(order, failures, key);
        OldestDropped(order, failures);
        Happens(history, Evicted(oldest), key);
        ClearedTracks(failures, history, Evicted(oldest), clock, window, oldest);
        failures := failures - {oldest};
        order := order[1..];
        history := history + [Evicted(oldest)];
        assert history == old(history) + [Failed(key, now), Evicted(oldest)];
      }
    }

    method RecordSuccess(key: string)
      requires Valid()
      modifies `failures, `order, `history
      ensures Valid() && key !in failures && history == old(history) + [Succeeded(key)]
      ensures Since(history, key) == []
      ensures forall k :: k != key ==> Stored(failures, k) == old(Stored(failures, k)) && Since(history, k) == old(Since(history, k))
      ensures order == Without(old(order), key)
    {
      hide Since, Tracks, Agrees, Without;
      forall k
        ensures Since(history + [Succeeded(key)], k) == if k == key then [] else Since(history, k)
      {
        Happens(history, Succeeded(key), k);
      }
      ClearedTracks(failures, history, Succeeded(key), clock, window, key);
      Removed(order, failures, key);
      failures := failures - {key};
      order := Without(order, key);
      history := history + [Succeeded(key)];
    }
  }

  // ----- the header can be too early -----

  /** Two failures where one is allowed: the header says one second, and after it the newer one still counts. */
  method TwoFailuresOneAllowed() returns (told: Verdict, after: Verdict, muchLater: Verdict)
    ensures told == Refused(1) && after.Refused? && muchLater.Refused?
  {
    hide Since, Recent, RetryAfter, TrueWait, Tracks, Agrees, Kept, FailedThen, Recency, OthersKept, Without;
    var limiter := new LoginRateLimiter(1, 10.0, 1);
    NothingYet("someone");
    limiter.RecordFailure("someone", 0.0);
    limiter.RecordFailure("someone", 9.0);
    assert [] + [0.0] + [9.0] == [0.0, 9.0];
    TwoAt(9.0);
    told := limiter.EnsureAllowed("someone", 9.0);
    TwoAt(10.0);
    after := limiter.EnsureAllowed("someone", 10.0);
    TwoAt(18.0);
    muchLater := limiter.EnsureAllowed("someone", 18.0);
  }

  lemma NothingYet(key: string)
    ensures Since([], key) == []
  {
  }

  lemma TwoAt(now: real)
    requires now == 9.0 || now == 10.0 || now == 18.0
    ensures Recent([0.0, 9.0], now - 10.0) == if now == 9.0 then [0.0, 9.0] else [9.0]
    ensures RetryAfter([0.0, 9.0], 10.0, 9.0) == 1
  {
    if now == 9.0 {
      RecentIsTail([0.0, 9.0], now - 10.0, 0);
    } else {
      RecentIsTail([0.0, 9.0], now - 10.0, 1);
    }
  }

  /** As many failures as allowed: the header rounds the wait of 1.4 seconds down to one. */
  method OneFailureRoundedDown() returns (told: Verdict, after: Verdict)
    ensures told == Refused(1) && after.Refused?
  {
    hide Since, Recent, TrueWait, Tracks, Agrees, Kept, FailedThen, Recency, OthersKept, Without;
    var limiter := new LoginRateLimiter(1, 10.0, 1);
    NothingYet("someone");
    limiter.RecordFailure("someone", 0.0);
    assert [] + [0.0] == [0.0];
    RecentIsTail([0.0], 8.6 - 10.0, 0);
    told := limiter.EnsureAllowed("someone", 8.6);
    RecentIsTail([0.0], 9.6 - 10.0, 0);
    after := limiter.EnsureAllowed("someone", 9.6);
  }
}
