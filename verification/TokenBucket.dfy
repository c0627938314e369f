/** The rate limiter in front of authentication, over real arithmetic. */
module TokenBuckets {

  // ---- One bucket as a value ----

  datatype Bucket = Bucket(tokens: real, last: real)

  function Min(a: real, b: real): real {
    if a <= b then a else b
  }

  /** Time never runs backwards: an earlier instant counts as no time at all. */
  function Elapsed(since: real, now: real): real {
    if now <= since then 0.0 else now - since
  }

  /** The tokens there are at an instant, before any is taken. */
  function Level(b: Bucket, capacity: real, inflow: real -> real, now: real): real {
    Min(b.tokens + inflow(Elapsed(b.last, now)), capacity)
  }

  function Ask(b: Bucket, capacity: real, inflow: real -> real, now: real): (Bucket, bool) {
    var level := Level(b, capacity, inflow, now);
    if level >= 1.0 then (Bucket(level - 1.0, now), true) else (Bucket(level, now), false)
  }

  function PerSecond(refill: real): real -> real {
    seconds => seconds * refill
  }

  class RateLimiter {
    const capacity: real
    const refill: real
    var tokens: real
    var last: real

    constructor (capacity: nat, window: real, now: real)
      requires window > 0.0
      ensures Value() == Bucket(capacity as real, now)
      ensures this.capacity == capacity as real && refill == capacity as real / window
      ensures Valid()
    {
      this.capacity := capacity as real;
      refill := capacity as real / window;
      tokens, last := capacity as real, now;
    }

    ghost function Value(): Bucket
      reads this
    {
      Bucket(tokens, last)
    }

    ghost predicate Valid()
      reads this
    {
      0.0 <= tokens <= capacity && refill >= 0.0
    }

    method Allow(now: real) returns (ok: bool)
      requires Valid()
      modifies this
      ensures Valid()
      ensures (Value(), ok) == Ask(old(Value()), capacity, PerSecond(refill), now)
    {
      var elapsed := if now <= last then 0.0 else now - last;
      assert elapsed * refill >= 0.0;
      tokens := Min(tokens + elapsed * refill, capacity);
      last := now;
      if tokens >= 1.0 {
        tokens := tokens - 1.0;
        ok := true;
      } else {
        ok := false;
      }
    }
  }

  // ---- Every sequence of calls ----

  function After(b: Bucket, capacity: real, inflow: real -> real, times: seq<real>): Bucket {
    if times == [] then b
    else Ask(After(b, capacity, inflow, times[..|times| - 1]), capacity, inflow, times[|times| - 1]).0
  }

  /** How many of these calls are allowed. */
  function Allowed(b: Bucket, capacity: real, inflow: real -> real, times: seq<real>): nat {
    if times == [] then 0
    else
      var rest := times[..|times| - 1];
      var asked := Ask(After(b, capacity, inflow, rest), capacity, inflow, times[|times| - 1]);
      Allowed(b, capacity, inflow, rest) + if asked.1 then 1 else 0
  }

  ghost predicate Nondecreasing(times: seq<real>) {
    forall i, j :: 0 <= i < j < |times| ==> times[i] <= times[j]
  }

  ghost predicate Adds(inflow: real -> real, s: real, t: real) {
    inflow(s) + inflow(t) == inflow(s + t)
  }

  /** Tokens only flow in, and over adjoining spans the inflows add up. */
  ghost predicate Steady(inflow: real -> real) {
    && inflow(0.0) == 0.0
    && (forall t :: t >= 0.0 ==> inflow(t) >= 0.0)
    && forall s, t :: Adds(inflow, s, t)
  }

  lemma PerSecondIsSteady(refill: real)
    requires refill >= 0.0
    ensures Steady(PerSecond(refill))
  {
  }

  /** Every token spent was there at the start or flowed in since. */
  lemma {:induction false} Spent(b: Bucket, capacity: real, inflow: real -> real, times: seq<real>)
    requires 0.0 <= b.tokens <= capacity && Steady(inflow)
    requires Nondecreasing(times) && times != [] && b.last <= times[0]
    ensures var z := After(b, capacity, inflow, times);
            && 0.0 <= z.tokens <= capacity && z.last == times[|times| - 1]
            && Allowed(b, capacity, inflow, times) as real + z.tokens <= b.tokens + inflow(z.last - b.last)
  {
    var n := |times| - 1;
    if n == 0 {
      assert times[..0] == [];
    } else {
      Spent(b, capacity, inflow, times[..n]);
      var mid := After(b, capacity, inflow, times[..n]);
      assert Adds(inflow, mid.last - b.last, times[n] - mid.last);
      assert (mid.last - b.last) + (times[n] - mid.last) == times[n] - b.last;
    }
  }

  /** The bucket never overflows or goes into debt. */
  lemma {:induction false} Bounded(b: Bucket, capacity: real, inflow: real -> real, times: seq<real>)
    requires 0.0 <= b.tokens <= capacity && Steady(inflow)
    ensures 0.0 <= After(b, capacity, inflow, times).tokens <= capacity
    ensures After(b, capacity, inflow, times).last == if times == [] then b.last else times[|times| - 1]
  {
    if times != [] {
      Bounded(b, capacity, inflow, times[..|times| - 1]);
    }
  }

  lemma {:induction false} Split(b: Bucket, capacity: real, inflow: real -> real, before: seq<real>, times: seq<real>)
    ensures var mid := After(b, capacity, inflow, before);
            && After(b, capacity, inflow, before + times) == After(mid, capacity, inflow, times)
            && Allowed(b, capacity, inflow, before + times) ==
                 Allowed(b, capacity, inflow, before) + Allowed(mid, capacity, inflow, times)
  {
    if times == [] {
      assert before + times == before;
    } else {
      var rest := times[..|times| - 1];
      Split(b, capacity, inflow, before, rest);
      assert (before + times)[..|before + times| - 1] == before + rest;
    }
  }

  lemma {:induction false} SameFromFirst(b: Bucket, now: Bucket, capacity: real, inflow: real -> real, times: seq<real>)
    requires times != [] && inflow(0.0) == 0.0
    requires now == Bucket(Level(b, capacity, inflow, times[0]), times[0])
    ensures After(b, capacity, inflow, times) == After(now, capacity, inflow, times)
    ensures Allowed(b, capacity, inflow, times) == Allowed(now, capacity, inflow, times)
  {
    var rest := times[..|times| - 1];
    if rest != [] {
      SameFromFirst(b, now, capacity, inflow, rest);
    }
  }

  /** Seen from its first call, an interval starts with at most a full bucket. */
  lemma SpentFromFull(b: Bucket, capacity: real, inflow: real -> real, times: seq<real>)
    requires 0.0 <= b.tokens <= capacity && Steady(inflow)
    requires Nondecreasing(times) && times != [] && b.last <= times[0]
    ensures Allowed(b, capacity, inflow, times) as real <= capacity + inflow(times[|times| - 1] - times[0])
  {
    var now := Bucket(Level(b, capacity, inflow, times[0]), times[0]);
    SameFromFirst(b, now, capacity, inflow, times);
    Spent(now, capacity, inflow, times);
  }

  lemma MoreInflow(inflow: real -> real, gap: real, span: real)
    requires Steady(inflow) && gap <= span
    ensures inflow(gap) <= inflow(span)
  {
    assert Adds(inflow, gap, span - gap);
    assert gap + (span - gap) == span;
  }

  /** The calls of `here` that are allowed, after any calls `before`, on a limiter that
      started full: at most its capacity, plus what flows in over any span of time that
      holds them. */
  lemma RunBound(capacity: real, inflow: real -> real, start: real, before: seq<real>, here: seq<real>, span: real)
    requires capacity >= 0.0 && Steady(inflow)
    requires Nondecreasing([start] + before + here) && here != [] && here[|here| - 1] - here[0] <= span
    ensures var full := Bucket(capacity, start);
            Allowed(full, capacity, inflow, before + here) as real <=
              Allowed(full, capacity, inflow, before) as real + capacity + inflow(span)
  {
    var full := Bucket(capacity, start);
    InOrder(start, before, here);
    Split(full, capacity, inflow, before, here);
    Bounded(full, capacity, inflow, before);
    SpentFromFull(After(full, capacity, inflow, before), capacity, inflow, here);
    MoreInflow(inflow, here[|here| - 1] - here[0], span);
  }

  lemma InOrder(start: real, before: seq<real>, here: seq<real>)
    requires Nondecreasing([start] + before + here) && here != []
    ensures Nondecreasing(here)
    ensures (if before == [] then start else before[|before| - 1]) <= here[0]
  {
    var all := [start] + before + here;
    assert forall i :: 0 <= i < |here| ==> here[i] == all[1 + |before| + i];
    assert all[|before|] == if before == [] then start else before[|before| - 1];
  }

  /** The limiter's own bound: its capacity, plus what `capacity` per window makes of
      the span. */
  lemma RateBound(capacity: nat, window: real, inflow: real -> real,
                  start: real, before: seq<real>, here: seq<real>, span: real)
    requires window > 0.0 && inflow == PerSecond(capacity as real / window)
    requires Nondecreasing([start] + before + here) && here != [] && here[|here| - 1] - here[0] <= span
    ensures var cap := capacity as real;
            var full := Bucket(cap, start);
            Allowed(full, cap, inflow, before + here) as real <=
              Allowed(full, cap, inflow, before) as real + cap + inflow(span)
  {
    PerSecondIsSteady(capacity as real / window);
    RunBound(capacity as real, inflow, start, before, here, span);
  }

  // ---- At most `capacity` per window? ----

  /** The reading of the limiter's own comment: no more calls than its capacity are
      allowed within less than a window. */
  ghost predicate CapacityPerWindow(capacity: nat, window: real, inflow: real -> real) {
    forall start: real, before: seq<real>, here: seq<real> ::
      Nondecreasing([start] + before + here) && here != [] && here[|here| - 1] - here[0] < window ==>
        var full := Bucket(capacity as real, start);
        Allowed(full, capacity as real, inflow, before + here) <=
          Allowed(full, capacity as real, inflow, before) + capacity
  }

  function Burst(start: real, n: nat): seq<real> {
    if n == 0 then [] else Burst(start, n - 1) + [start]
  }

  lemma {:induction false} BurstIsAllowed(capacity: nat, inflow: real -> real, start: real, n: nat)
    requires n <= capacity && inflow(0.0) == 0.0
    ensures var full := Bucket(capacity as real, start);
            && |Burst(start, n)| == n && (forall i :: 0 <= i < n ==> Burst(start, n)[i] == start)
            && After(full, capacity as real, inflow, Burst(start, n)) == Bucket((capacity - n) as real, start)
            && Allowed(full, capacity as real, inflow, Burst(start, n)) == n
  {
    if n > 0 {
      BurstIsAllowed(capacity, inflow, start, n - 1);
      assert Burst(start, n)[..n - 1] == Burst(start, n - 1);
    }
  }

  lemma OneMoreIsAllowed(capacity: nat, inflow: real -> real, gap: real)
    requires capacity >= 1 && inflow(0.0) == 0.0 && gap > 0.0 && inflow(gap) == 1.0
    ensures var full := Bucket(capacity as real, 0.0);
            Allowed(full, capacity as real, inflow, Burst(0.0, capacity) + [gap]) == capacity + 1
  {
    var full := Bucket(capacity as real, 0.0);
    BurstIsAllowed(capacity, inflow, 0.0, capacity);
    assert [gap][..0] == [];
    Split(full, capacity as real, inflow, Burst(0.0, capacity), [gap]);
    assert Level(Bucket(0.0, 0.0), capacity as real, inflow, gap) == 1.0;
  }

  lemma BurstInOrder(capacity: nat, inflow: real -> real, gap: real)
    requires inflow(0.0) == 0.0 && gap > 0.0
    ensures Nondecreasing([0.0] + [] + (Burst(0.0, capacity) + [gap]))
  {
    BurstIsAllowed(capacity, inflow, 0.0, capacity);
  }

  lemma OneToken(capacity: real, window: real)
    requires capacity > 0.0 && window > 0.0
    ensures PerSecond(capacity / window)(window / capacity) == 1.0 && window / capacity > 0.0
  {
    assert (window / capacity) * (capacity / window) == 1.0;
  }

  lemma SmallerThanWindow(capacity: real, window: real)
    requires capacity > 1.0 && window > 0.0
    ensures window / capacity < window
  {
    assert (window / capacity) * capacity == window;
    assert (window / capacity) * (capacity - 1.0) > 0.0;
  }

  lemma ScaledLess(a: real, b: real, r: real)
    requires a < b && r > 0.0
    ensures a * r < b * r
  {
    var d := b - a;
    assert d * r > 0.0;
    assert b * r == (a + d) * r == a * r + d * r;
  }

  lemma LessThanOne(capacity: real, window: real, span: real)
    requires 0.0 <= capacity <= 1.0 && window > 0.0 && span < window
    ensures PerSecond(capacity / window)(span) < 1.0
  {
    var r := capacity / window;
    assert PerSecond(r)(span) == span * r && window * r == capacity;
    if capacity > 0.0 {
      assert r > 0.0;
      ScaledLess(span, window, r);
    } else {
      assert r == 0.0;
    }
  }

  lemma TooManyInOneWindow(capacity: nat, window: real, inflow: real -> real, gap: real)
    requires capacity >= 1 && inflow(0.0) == 0.0 && 0.0 < gap < window && inflow(gap) == 1.0
    ensures !CapacityPerWindow(capacity, window, inflow)
  {
    OneMoreIsAllowed(capacity, inflow, gap);
    BurstInOrder(capacity, inflow, gap);
    BurstIsAllowed(capacity, inflow, 0.0, capacity);
    var here := Burst(0.0, capacity) + [gap];
    assert [] + here == here;
    assert Allowed(Bucket(capacity as real, 0.0), capacity as real, inflow, []) == 0;
    assert here[0] == 0.0;
  }

  lemma FewInOneWindow(capacity: nat, window: real, inflow: real -> real)
    requires window > 0.0 && Steady(inflow) && forall span :: span < window ==> inflow(span) < 1.0
    ensures CapacityPerWindow(capacity, window, inflow)
  {
    forall start: real, before: seq<real>, here: seq<real> |
      Nondecreasing([start] + before + here) && here != [] && here[|here| - 1] - here[0] < window
      ensures var full := Bucket(capacity as real, start);
              Allowed(full, capacity as real, inflow, before + here) <=
                Allowed(full, capacity as real, inflow, before) + capacity
    {
      RunBound(capacity as real, inflow, start, before, here, here[|here| - 1] - here[0]);
    }
  }

  /** The comment holds only of a limiter of capacity one or none; a larger one allows
      one call more than its capacity within a fraction of the window. */
  lemma CapacityPerWindowIff(capacity: nat, window: real, inflow: real -> real)
    requires window > 0.0 && inflow == PerSecond(capacity as real / window)
    ensures CapacityPerWindow(capacity, window, inflow) <==> capacity <= 1
  {
    PerSecondIsSteady(capacity as real / window);
    if capacity <= 1 {
      forall span | span < window ensures inflow(span) < 1.0 {
        LessThanOne(capacity as real, window, span);
      }
      FewInOneWindow(capacity, window, inflow);
    } else {
      OneToken(capacity as real, window);
      SmallerThanWindow(capacity as real, window);
      TooManyInOneWindow(capacity, window, inflow, window / capacity as real);
    }
  }
}
