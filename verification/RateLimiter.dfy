/** The sliding-window limiter: a pruned queue per key against the full list of accepted events. */
module RateLimiter {

  type Time = int
  type Key = string

  ghost predicate Sorted(s: seq<Time>) {
    forall i, j :: 0 <= i < j < |s| ==> s[i] <= s[j]
  }

  /** The events no older than the cutoff; one exactly at the cutoff still counts. */
  function After(s: seq<Time>, cutoff: Time): seq<Time> {
    if s == [] then []
    else After(s[..|s| - 1], cutoff) + (if s[|s| - 1] >= cutoff then [s[|s| - 1]] else [])
  }

  /** How many events fall in the closed interval of this length. */
  function Within(s: seq<Time>, from: Time, length: nat): nat {
    if s == [] then 0
    else Within(s[..|s| - 1], from, length) + (if from <= s[|s| - 1] <= from + length then 1 else 0)
  }

  /** No interval of the window's length holds more events than the limit. */
  ghost predicate Capped(s: seq<Time>, limit: int, window: nat) {
    forall from :: Within(s, from, window) <= limit
  }

  lemma {:induction false} AfterTail(s: seq<Time>, cutoff: Time)
    requires s != [] && s[0] < cutoff
    ensures After(s[1..], cutoff) == After(s, cutoff)
  {
    if |s| > 1 {
      AfterTail(s[..|s| - 1], cutoff);
      assert s[1..][..|s| - 2] == s[..|s| - 1][1..];
    }
  }

  lemma {:induction false} AfterAll(s: seq<Time>, cutoff: Time)
    requires forall i :: 0 <= i < |s| ==> s[i] >= cutoff
    ensures After(s, cutoff) == s
  {
    if s != [] {
      AfterAll(s[..|s| - 1], cutoff);
    }
  }

  lemma AfterAppend(s: seq<Time>, last: Time, cutoff: Time)
    ensures After(s + [last], cutoff) == After(s, cutoff) + (if last >= cutoff then [last] else [])
  {
    assert (s + [last])[..|s|] == s;
  }

  lemma {:induction false} AfterAfter(s: seq<Time>, first: Time, second: Time)
    ensures After(After(s, first), second) == After(s, Later(first, second))
  {
    if s != [] {
      var kept, last := After(s[..|s| - 1], first), s[|s| - 1];
      AfterAfter(s[..|s| - 1], first, second);
      if last >= first {
        AfterAppend(kept, last, second);
      } else {
        assert After(s, first) == kept;
      }
    }
  }

  lemma {:induction false} AfterOrdered(s: seq<Time>, cutoff: Time, clock: Time)
    requires Sorted(s) && forall i :: 0 <= i < |s| ==> s[i] <= clock
    ensures Sorted(After(s, cutoff)) && forall i :: 0 <= i < |After(s, cutoff)| ==> cutoff <= After(s, cutoff)[i] <= clock
  {
    if s != [] {
      AfterOrdered(s[..|s| - 1], cutoff, s[|s| - 1]);
    }
  }

  lemma {:induction false} WithinAfter(s: seq<Time>, from: Time, length: nat, cutoff: Time)
    requires cutoff <= from
    ensures Within(s, from, length) <= |After(s, cutoff)|
  {
    if s != [] {
      WithinAfter(s[..|s| - 1], from, length, cutoff);
    }
  }

  function Later(a: Time, b: Time): Time { if a < b then b else a }

  /** Pruning with a shorter window before loses exactly the events between the two cutoffs, so the count
      of a wider window is right if and only if there are none. */
  lemma {:induction false} WiderWindowForgets(s: seq<Time>, floor: Time, cutoff: Time)
    ensures |After(s, Later(floor, cutoff))| <= |After(s, cutoff)|
    ensures |After(s, Later(floor, cutoff))| == |After(s, cutoff)| <==> forall i :: 0 <= i < |s| ==> !(cutoff <= s[i] < floor)
  {
    if s != [] {
      WiderWindowForgets(s[..|s| - 1], floor, cutoff);
    }
  }

  /** Accepting at `now` with fewer than `limit` events in the window before it keeps every window within the limit. */
  lemma AcceptKeepsCap(s: seq<Time>, limit: int, window: nat, now: Time)
    requires |After(s, now - window)| < limit && Capped(s, limit, window)
    ensures Capped(s + [now], limit, window)
  {
    assert (s + [now])[..|s|] == s;
    forall from
      ensures Within(s + [now], from, window) <= limit
    {
      if from <= now <= from + window {
        WithinAfter(s, from, window, now - window);
      }
    }
  }

  /** A queue pruned no further than `floor` out of everything accepted up to the clock. */
  ghost predicate Tracks(queue: seq<Time>, past: seq<Time>, floor: Time, clock: Time) {
    && Sorted(past) && (forall i :: 0 <= i < |past| ==> past[i] <= clock)
    && queue == After(past, floor)
  }

  lemma FreshTracks(floor: Time, clock: Time)
    ensures Sorted([]) && After([], floor) == [] && Tracks([], [], floor, clock)
  {
  }

  lemma LaterTracks(queue: seq<Time>, past: seq<Time>, floor: Time, clock: Time, now: Time)
    requires Tracks(queue, past, floor, clock) && clock <= now
    ensures Tracks(queue, past, floor, now)
  {
  }

  lemma PrunedTracks(queue: seq<Time>, past: seq<Time>, floor: Time, clock: Time, cutoff: Time)
    requires Tracks(queue, past, floor, clock)
    ensures Sorted(queue) && Tracks(After(queue, cutoff), past, Later(floor, cutoff), clock)
  {
    AfterOrdered(past, floor, clock);
    AfterAfter(past, floor, cutoff);
  }

  lemma AcceptTracks(queue: seq<Time>, past: seq<Time>, floor: Time, now: Time)
    requires Tracks(queue, past, floor, now) && floor <= now
    ensures Tracks(queue + [now], past + [now], floor, now)
  {
    hide After;
    AfterAppend(past, now, floor);
  }

  ghost predicate AllTracked(events: map<Key, seq<Time>>, history: map<Key, seq<Time>>, floor: map<Key, Time>, clock: Time) {
    && history.Keys == floor.Keys == events.Keys
    && forall key :: key in events ==> floor[key] <= clock && Tracks(events[key], history[key], floor[key], clock)
  }

  lemma KeyTracked(events: map<Key, seq<Time>>, history: map<Key, seq<Time>>, floor: map<Key, Time>, clock: Time, key: Key)
    requires AllTracked(events, history, floor, clock)
    ensures history.Keys == floor.Keys == events.Keys
    ensures key in events ==> floor[key] <= clock && Tracks(events[key], history[key], floor[key], clock)
  {
  }

  lemma StoreTracked(events: map<Key, seq<Time>>, history: map<Key, seq<Time>>, floor: map<Key, Time>, clock: Time,
                     key: Key, queue: seq<Time>, past: seq<Time>, mark: Time, now: Time)
    requires AllTracked(events, history, floor, clock) && clock <= now && mark <= now && Tracks(queue, past, mark, now)
    ensures AllTracked(events[key := queue], history[key := past], floor[key := mark], now)
  {
    hide Tracks;
    forall k | k in events
      ensures Tracks(events[k], history[k], floor[k], now)
    {
      LaterTracks(events[k], history[k], floor[k], clock, now);
    }
  }

  class InMemoryRateLimiter {
    var events: map<Key, seq<Time>>
    ghost var history: map<Key, seq<Time>>    // every event ever accepted
    ghost var floor: map<Key, Time>           // the latest cutoff used so far
    ghost var clock: Time

    ghost predicate Valid()
      reads this
    {
      AllTracked(events, history, floor, clock)
    }

    ghost function History(key: Key): seq<Time>
      reads this
    {
      if key in history then history[key] else []
    }

    /** The cutoff in force for a key once a call asks for this one. */
    ghost function Floor(key: Key, cutoff: Time): Time
      reads this
    {
      if key in floor then Later(floor[key], cutoff) else cutoff
    }

    /** No call so far has looked less far back than `window`. */
    ghost predicate Steady(window: nat)
      reads this
    {
      forall key :: key in floor ==> floor[key] <= clock - window
    }

    ghost predicate Bounded(limit: int, window: nat)
      reads this
    {
      forall key :: Capped(History(key), limit, window)
    }

    constructor (ghost start: Time)
      ensures Valid() && clock == start && floor == map[] && forall key :: History(key) == []
      ensures forall window :: Steady(window)
    {
      events, history, floor := map[], map[], map[];
      clock := start;
    }

    method Prune(queue: seq<Time>, cutoff: Time) returns (kept: seq<Time>)
      requires Sorted(queue)
      ensures kept == After(queue, cutoff)
    {
      kept := queue;
      while kept != [] && kept[0] < cutoff
        invariant Sorted(kept) && After(kept, cutoff) == After(queue, cutoff)
      {
        AfterTail(kept, cutoff);
        kept := kept[1..];
      }
      AfterAll(kept, cutoff);
    }

    method Allow(key: Key, limit: int, window: nat, now: Time) returns (allowed: bool)
      requires Valid() && clock <= now
      modifies this
      ensures Valid() && clock == now
      ensures allowed <==> |After(old(History(key)), old(Floor(key, now - window)))| < limit
      ensures History(key) == if allowed then old(History(key)) + [now] else old(History(key))
      ensures floor == old(floor)[key := old(Floor(key, now - window))]
      ensures forall other :: other != key ==> History(other) == old(History(other))
      // With one window throughout, the pruned queue counts exactly what the full history would.
      ensures old(Steady(window)) ==>
                Steady(window) && (allowed <==> |After(old(History(key)), now - window)| < limit)
      ensures old(Steady(window) && Bounded(limit, window)) ==> Bounded(limit, window)
    {
      hide Tracks, AllTracked, Capped, After;
      KeyTracked(events, history, floor, clock, key);
      var cutoff := now - window;
      var queue := if key in events then events[key] else [];
      ghost var past, mark := History(key), Floor(key, cutoff);
      if key in events {
        PrunedTracks(queue, past, floor[key], clock, cutoff);
      } else {
        FreshTracks(mark, clock);
      }
      var kept := Prune(queue, cutoff);
      LaterTracks(kept, past, mark, clock, now);
      allowed := |kept| < limit;
      if allowed {
        if mark == cutoff && Capped(past, limit, window) {
          AcceptKeepsCap(past, limit, window, now);
        }
        AcceptTracks(kept, past, mark, now);
      }
      StoreTracked(events, history, floor, clock, key, if allowed then kept + [now] else kept,
                   if allowed then past + [now] else past, mark, now);
      events := events[key := if allowed then kept + [now] else kept];
      history := history[key := if allowed then past + [now] else past];
      floor := floor[key := mark];
      clock := now;
    }
  }

  /** Three calls with limit two and windows 10, 5 and 10: the middle one forgets the first event, and the last
      is let in although the full history already holds two events of its window. */
  method WiderWindowAdmitsTooMany(key: Key) returns (limiter: InMemoryRateLimiter, last: bool)
    ensures last && limiter.History(key) == [0, 6, 8]
    ensures |After([0, 6], 8 - 10)| == 2 && Within(limiter.History(key), 8 - 10, 10) == 3
  {
    hide After, Within, AllTracked, Capped;
    AfterTwo(0, 6, -10);
    AfterTwo(0, 6, -2);
    AfterTwo(0, 6, 1);
    WithinThree(0, 6, 8, -2, 10);
    limiter := new InMemoryRateLimiter(0);
    var first := limiter.Allow(key, 2, 10, 0);
    assert limiter.History(key) == [0] && limiter.floor == map[key := -10];
    var second := limiter.Allow(key, 2, 5, 6);
    assert limiter.History(key) == [0, 6] && limiter.floor == map[key := 1];
    last := limiter.Allow(key, 2, 10, 8);
  }

  lemma AfterTwo(a: Time, b: Time, cutoff: Time)
    ensures After([], cutoff) == [] && After([a], cutoff) == if a >= cutoff then [a] else []
    ensures After([a, b], cutoff) == (if a >= cutoff then [a] else []) + (if b >= cutoff then [b] else [])
  {
    AfterAppend([], a, cutoff);
    AfterAppend([a], b, cutoff);
    assert [] + [a] == [a] && [a] + [b] == [a, b];
  }

  lemma WithinAppend(s: seq<Time>, last: Time, from: Time, length: nat)
    ensures Within(s + [last], from, length) == Within(s, from, length) + if from <= last <= from + length then 1 else 0
  {
    assert (s + [last])[..|s|] == s;
  }

  lemma WithinThree(a: Time, b: Time, c: Time, from: Time, length: nat)
    requires from <= a <= b <= c <= from + length
    ensures Within([a, b, c], from, length) == 3
  {
    WithinAppend([], a, from, length);
    WithinAppend([a], b, from, length);
    WithinAppend([a, b], c, from, length);
    assert [] + [a] == [a] && [a] + [b] == [a, b] && [a, b] + [c] == [a, b, c];
  }
}
