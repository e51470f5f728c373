/**
 The fixed-window rate limiter (rate-limiter.service.ts) over the counter that Redis keeps for a
 key: incrementing starts a missing counter at one, and a counter is gone when its time is up.
 */
module RateLimiter {
  import opened Platform

  type Positive = n: nat | n > 0 witness 1

  datatype Counter = Absent | Counter(count: Positive, expiresAt: Time)

  datatype RateLimitResult = RateLimitResult(allowed: bool, remaining: nat, resetSeconds: nat)

  /** What a key still holds at a moment. */
  function Read(c: Counter, now: Time): Counter {
    if c.Counter? && now < c.expiresAt then c else Absent
  }

  /** The counter after one call: the first call of a lifetime sets when it ends. */
  function Counted(c: Counter, window: nat, now: Time): Counter {
    match Read(c, now)
    case Absent => Counter(1, now + window * 1000)
    case Counter(count, expiresAt) => Counter(count + 1, expiresAt)
  }

  /** TTL rounds to the nearest second. */
  function Seconds(millis: int): int { (millis + 500) / 1000 }

  class RateLimiterService {
    var keys: map<string, Counter>

    function Of(key: string): Counter
      reads this
    {
      if key in keys then keys[key] else Absent
    }

    constructor ()
      ensures keys == map[]
    {
      keys := map[];
    }

    method Consume(key: string, limit: nat, windowSeconds: nat, now: Time) returns (r: RateLimitResult)
      modifies this
      ensures keys == old(keys)[key := Counted(old(Of(key)), windowSeconds, now)]
      ensures r.allowed <==> keys[key].count <= limit
      ensures r.remaining == if keys[key].count <= limit then limit - keys[key].count else 0
      ensures r.resetSeconds == Seconds(keys[key].expiresAt - now)
      ensures key in keys
      ensures if old(Of(key)).Counter? && now < old(Of(key)).expiresAt
              then keys[key] == Counter(old(Of(key)).count + 1, old(Of(key)).expiresAt)
              else keys[key] == Counter(1, now + windowSeconds * 1000)
      ensures -500 <= 1000 * r.resetSeconds - (keys[key].expiresAt - now) <= 500
    {
      var count: Positive, expiresAt := 1, now;
      var held := Read(Of(key), now);
      if held.Counter? {
        count, expiresAt := held.count + 1, held.expiresAt;
      }
      if count == 1 {
        expiresAt := now + windowSeconds * 1000;
      }
      keys := keys[key := Counter(count, expiresAt)];
      var ttl := Seconds(expiresAt - now);
      r := RateLimitResult(count <= limit, if limit > count then limit - count else 0, if ttl >= 0 then ttl else windowSeconds);
    }
  }

  // --- Over any sequence of calls on one key ---

  ghost predicate Ordered(calls: seq<Time>) {
    forall i, j :: 0 <= i < j < |calls| ==> calls[i] <= calls[j]
  }

  /** The counter after all calls. */
  ghost function CounterAfter(calls: seq<Time>, window: nat): Counter {
    if calls == [] then Absent else Counted(CounterAfter(calls[..|calls| - 1], window), window, calls[|calls| - 1])
  }

  /** Whether the last call is allowed. */
  ghost predicate LastAllowed(calls: seq<Time>, window: nat, limit: nat) {
    calls != [] && CounterAfter(calls, window).count <= limit
  }

  /** How many calls were allowed at from <= time < to. */
  ghost function AllowedBetween(calls: seq<Time>, window: nat, limit: nat, from: Time, to: Time): nat {
    if calls == [] then 0
    else
      var k := |calls| - 1;
      AllowedBetween(calls[..k], window, limit, from, to)
      + if from <= calls[k] < to && LastAllowed(calls, window, limit) then 1 else 0
  }

  lemma {:induction false} Splits(calls: seq<Time>, window: nat, limit: nat, a: Time, b: Time, c: Time)
    requires a <= b <= c
    ensures AllowedBetween(calls, window, limit, a, c)
         == AllowedBetween(calls, window, limit, a, b) + AllowedBetween(calls, window, limit, b, c)
  {
    if calls != [] { Splits(calls[..|calls| - 1], window, limit, a, b, c); }
  }

  lemma {:induction false} NoneYet(calls: seq<Time>, window: nat, limit: nat, from: Time, to: Time)
    requires forall k :: 0 <= k < |calls| ==> calls[k] < from
    ensures AllowedBetween(calls, window, limit, from, to) == 0
  {
    if calls != [] { NoneYet(calls[..|calls| - 1], window, limit, from, to); }
  }

  /** When the lifetime that the last call falls in started. */
  ghost function StartOf(calls: seq<Time>, window: nat): Time
    requires calls != []
  {
    CounterAfter(calls, window).expiresAt - window * 1000
  }

  /** The present lifetime began with an allowed call, contains the last one, and has allowed no more than the limit. */
  lemma {:induction false} LifetimeLimit(calls: seq<Time>, window: nat, limit: nat, to: Time)
    requires window > 0 && Ordered(calls) && calls != []
    ensures StartOf(calls, window) <= calls[|calls| - 1] < StartOf(calls, window) + window * 1000
    ensures
      var n := AllowedBetween(calls, window, limit, StartOf(calls, window), to);
      n <= CounterAfter(calls, window).count && n <= limit && (limit > 0 && to > StartOf(calls, window) ==> n > 0)
  {
    var k := |calls| - 1;
    var before := calls[..k];
    if k == 0 {
      assert before == [] && CounterAfter(before, window) == Absent;
      assert calls[..|calls| - 1] == before && CounterAfter(calls, window) == Counter(1, calls[k] + window * 1000);
      assert AllowedBetween(before, window, limit, StartOf(calls, window), to) == 0;
    } else {
      LifetimeLimit(before, window, limit, to);
      assert before[|before| - 1] <= calls[k];
      if Read(CounterAfter(before, window), calls[k]).Absent? {
        NoneYet(before, window, limit, calls[k], to);
      }
    }
  }

  /** Before the present lifetime, within a window of its start, one call of the limit is always too early. */
  lemma {:induction false} BeforeLifetime(calls: seq<Time>, window: nat, limit: nat, from: Time)
    requires window > 0 && Ordered(calls) && calls != []
    requires StartOf(calls, window) - window * 1000 < from <= StartOf(calls, window)
    ensures AllowedBetween(calls, window, limit, from, StartOf(calls, window)) <= if limit > 0 then limit - 1 else 0
  {
    var k := |calls| - 1;
    var before := calls[..k];
    var start := StartOf(calls, window);
    LifetimeLimit(calls, window, limit, start);
    assert AllowedBetween(calls, window, limit, from, start) == AllowedBetween(before, window, limit, from, start);
    if k > 0 {
      LifetimeLimit(before, window, limit, start);
      if Read(CounterAfter(before, window), calls[k]).Counter? {
        BeforeLifetime(before, window, limit, from);
      } else {
        var previous := StartOf(before, window);
        LifetimeLimit(before, window, limit, from);
        Splits(before, window, limit, previous, from, start);
      }
    }
  }

  /** Any stretch of time as long as the window sees at most 2 * limit - 1 allowed calls. */
  lemma {:induction false} WindowBound(calls: seq<Time>, window: nat, limit: nat, from: Time)
    requires Ordered(calls)
    ensures AllowedBetween(calls, window, limit, from, from + window * 1000) <= if limit > 0 then 2 * limit - 1 else 0
  {
    var to := from + window * 1000;
    if window == 0 {
      EmptyStretch(calls, window, limit, from);
    } else if calls != [] {
      var start := StartOf(calls, window);
      if to <= start {
        LifetimeLimit(calls, window, limit, to);
        WindowBound(calls[..|calls| - 1], window, limit, from);
      } else if from <= start {
        Splits(calls, window, limit, from, start, to);
        BeforeLifetime(calls, window, limit, from);
        LifetimeLimit(calls, window, limit, to);
      } else {
        Splits(calls, window, limit, start, from, to);
        LifetimeLimit(calls, window, limit, to);
      }
    }
  }

  lemma {:induction false} EmptyStretch(calls: seq<Time>, window: nat, limit: nat, from: Time)
    ensures AllowedBetween(calls, window, limit, from, from) == 0
  {
    if calls != [] { EmptyStretch(calls[..|calls| - 1], window, limit, from); }
  }

  // --- The bound is reached ---

  ghost function Repeat(t: Time, n: nat): seq<Time> { seq(n, _ => t) }

  /** n calls at one moment of a lifetime use up what is left of the limit. */
  lemma {:induction false} Burst(calls: seq<Time>, window: nat, limit: nat, t: Time, n: nat, from: Time, to: Time)
    requires calls != [] && t < CounterAfter(calls, window).expiresAt && from <= t < to
    requires CounterAfter(calls, window).count + n <= limit
    ensures CounterAfter(calls + Repeat(t, n), window) == Counter(CounterAfter(calls, window).count + n, CounterAfter(calls, window).expiresAt)
    ensures AllowedBetween(calls + Repeat(t, n), window, limit, from, to) == AllowedBetween(calls, window, limit, from, to) + n
  {
    if n == 0 {
      assert calls + Repeat(t, n) == calls;
    } else {
      Burst(calls, window, limit, t, n - 1, from, to);
      var all := calls + Repeat(t, n);
      assert all[..|all| - 1] == calls + Repeat(t, n - 1);
    }
  }

  /** One call, the rest of the limit at the end of its window, and the whole limit right after. */
  ghost function Worst(window: nat, limit: nat): seq<Time>
    requires limit > 0
  {
    [0] + Repeat(window * 1000 - 1, limit - 1) + [window * 1000] + Repeat(window * 1000, limit - 1)
  }

  lemma BoundIsReached(window: nat, limit: nat)
    requires window > 0 && limit > 0
    ensures Ordered(Worst(window, limit))
    ensures AllowedBetween(Worst(window, limit), window, limit, 1, 1 + window * 1000) == 2 * limit - 1
  {
    var w := window * 1000;
    var one: seq<Time> := [0];
    var first := one + Repeat(w - 1, limit - 1);
    var second := first + [w];
    assert one[..0] == [];
    Burst(one, window, limit, w - 1, limit - 1, 1, 1 + w);
    assert second[..|first|] == first;
    Burst(second, window, limit, w, limit - 1, 1, 1 + w);
  }
}
