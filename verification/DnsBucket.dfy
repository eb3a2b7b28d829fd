/**
  The token bucket of the DNS relay (dashboard/provisioner/attached-dns-relay.py), over real
  arithmetic. Its lock puts the UDP and TCP callers in one order, and the clock is read under the
  lock, so a life of the bucket is a sequence of non-decreasing clock readings.
*/
module DnsBucket {
  /** Tokens a second, and the most the bucket holds. */
  const RATE := 200.0

  datatype Level = Level(tokens: real, stamp: real)

  function Refilled(level: Level, now: real): real {
    var grown := level.tokens + (now - level.stamp) * RATE;
    if grown < RATE then grown else RATE
  }

  predicate Admits(level: Level, now: real) {
    Refilled(level, now) >= 1.0
  }

  function Taken(level: Level, now: real): Level {
    var tokens := Refilled(level, now);
    Level(if tokens < 1.0 then tokens else tokens - 1.0, now)
  }

  /** The level after a sequence of calls on a full bucket made at `start`. */
  function Served(start: real, calls: seq<real>): Level {
    if calls == [] then Level(RATE, start)
    else Taken(Served(start, calls[..|calls| - 1]), calls[|calls| - 1])
  }

  /** How many of the calls made in the window from `a` to `b`, both included, were admitted. */
  function AdmittedIn(start: real, calls: seq<real>, a: real, b: real): nat {
    if calls == [] then 0
    else
      var before, now := calls[..|calls| - 1], calls[|calls| - 1];
      AdmittedIn(start, before, a, b)
      + if a <= now <= b && Admits(Served(start, before), now) then 1 else 0
  }

  predicate Monotone(start: real, calls: seq<real>) {
    && (forall i :: 0 <= i < |calls| ==> start <= calls[i])
    && (forall i, j :: 0 <= i < j < |calls| ==> calls[i] <= calls[j])
  }

  /** What the rate allows in a window of `seconds`. */
  function Allowance(seconds: real): real {
    200.0 + 200.0 * seconds
  }

  lemma {:induction false} ServedStamp(start: real, calls: seq<real>)
    requires Monotone(start, calls)
    ensures var level := Served(start, calls);
            level.stamp == (if calls == [] then start else calls[|calls| - 1]) && level.tokens <= RATE
  {
  }

  /** Inside the window, tokens in hand plus calls admitted never exceed the allowance so far. */
  lemma {:induction false} WindowPotential(start: real, calls: seq<real>, a: real, b: real)
    requires Monotone(start, calls) && a <= b
    ensures var level, n := Served(start, calls), AdmittedIn(start, calls, a, b) as real;
            && (level.stamp < a ==> n == 0.0)
            && (a <= level.stamp <= b ==> n + level.tokens <= Allowance(level.stamp - a))
            && n <= Allowance(b - a)
  {
    if calls != [] {
      var before, now := calls[..|calls| - 1], calls[|calls| - 1];
      WindowPotential(start, before, a, b);
      ServedStamp(start, before);
    }
  }

  /** Whatever the calls, at most 200 + 200 t are admitted in any window of t seconds. */
  lemma AdmissionBound(start: real, calls: seq<real>, a: real, b: real)
    requires Monotone(start, calls) && a <= b
    ensures AdmittedIn(start, calls, a, b) as real <= Allowance(b - a)
  {
    WindowPotential(start, calls, a, b);
  }

  /** Some window is used up to the level in hand: the bucket never holds back more than the bound demands. */
  lemma {:induction false} TightWindow(start: real, calls: seq<real>) returns (a: real)
    requires Monotone(start, calls)
    ensures var level := Served(start, calls);
            && start <= a <= level.stamp
            && level.tokens + AdmittedIn(start, calls, a, level.stamp) as real >= Allowance(level.stamp - a)
  {
    a := start;
    if calls != [] {
      var before, now := calls[..|calls| - 1], calls[|calls| - 1];
      var level := Served(start, before);
      ServedStamp(start, before);
      if Refilled(level, now) == RATE {
        a := now;
      } else {
        a := TightWindow(start, before);
        Wider(start, before, a, level.stamp, now);
      }
    }
  }

  lemma {:induction false} Wider(start: real, calls: seq<real>, a: real, b: real, c: real)
    requires b <= c
    ensures AdmittedIn(start, calls, a, b) <= AdmittedIn(start, calls, a, c)
  {
    if calls != [] {
      Wider(start, calls[..|calls| - 1], a, b, c);
    }
  }

  /** Admitting one more query now keeps every window that ends now within its allowance. */
  ghost predicate RoomNow(start: real, calls: seq<real>, now: real) {
    forall a :: start <= a <= now ==> AdmittedIn(start, calls, a, now) as real + 1.0 <= Allowance(now - a)
  }

  /** The bucket is exactly the greedy limiter: a query is refused only when some window has no room for it. */
  lemma AdmitsIffRoom(start: real, calls: seq<real>, now: real)
    requires Monotone(start, calls + [now])
    ensures Admits(Served(start, calls), now) <==> RoomNow(start, calls, now)
  {
    var longer := calls + [now];
    assert longer[..|calls|] == calls;
    assert Monotone(start, calls) by { assert forall i :: 0 <= i < |calls| ==> calls[i] == longer[i]; }
    ServedStamp(start, calls);
    var level := Served(start, calls);
    assert level.stamp <= now by {
      if calls != [] {
        assert longer[|calls| - 1] <= longer[|calls|];
      } else {
        assert longer[0] == now;
      }
    }
    if Admits(level, now) {
      forall a | start <= a <= now
        ensures AdmittedIn(start, calls, a, now) as real + 1.0 <= Allowance(now - a)
      {
        AdmissionBound(start, longer, a, now);
      }
    } else {
      var a := now;
      if Refilled(level, now) < RATE {
        a := TightWindow(start, calls);
        Wider(start, calls, a, level.stamp, now);
      }
      assert AdmittedIn(start, calls, a, now) as real + 1.0 > Allowance(now - a);
    }
  }

  class Bucket {
    var tokens: real
    var stamp: real
    ghost const start: real
    ghost var calls: seq<real>

    ghost predicate Valid()
      reads this
    {
      Monotone(start, calls) && Level(tokens, stamp) == Served(start, calls)
    }

    constructor (now: real)
      ensures Valid() && start == now && calls == []
    {
      tokens, stamp := RATE, now;
      start, calls := now, [];
    }

    /** Takes a token if there is one: exactly when every window ending now still has room. */
    method Take(now: real) returns (admitted: bool)
      requires Valid() && Monotone(start, calls + [now])
      modifies this
      ensures Valid() && calls == old(calls) + [now]
      ensures admitted <==> RoomNow(start, old(calls), now)
      ensures forall a, b :: a <= b ==> AdmittedIn(start, calls, a, b) as real <= Allowance(b - a)
    {
      AdmitsIffRoom(start, calls, now);
      assert (calls + [now])[..|calls|] == calls;
      var grown := tokens + (now - stamp) * RATE;
      tokens := if grown < RATE then grown else RATE;
      stamp := now;
      calls := calls + [now];
      admitted := tokens >= 1.0;
      if admitted {
        tokens := tokens - 1.0;
      }
      forall a, b | a <= b
        ensures AdmittedIn(start, calls, a, b) as real <= Allowance(b - a)
      {
        AdmissionBound(start, calls, a, b);
      }
    }
  }
}
