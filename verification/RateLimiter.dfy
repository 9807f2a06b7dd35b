/** The token bucket that guards the route starting a browser authorization. */
module RateLimiter {
  import opened Wrappers
  import opened Division

  /** `last` is the latest time permits were credited up to, or None before the first call. */
  datatype Bucket = Bucket(interval: int, burst: nat, tokens: int, last: Option<int>)

  function New(burst: nat, interval: int): Bucket { Bucket(interval, burst, burst, None) }

  /** Credits the whole intervals since the last call, up to the burst; the remainder carries
      forward. */
  function Refill(b: Bucket, now: int): Bucket
    requires b.interval > 0
  {
    var last := if b.last.None? then now else b.last.value;
    var elapsed := now - last;
    if elapsed >= b.interval then
      var gained := elapsed / b.interval;
      b.(tokens := Min(b.tokens + gained, b.burst), last := Some(last + gained * b.interval))
    else b.(last := Some(last))
  }

  function Allow(b: Bucket, now: int): (Bucket, bool)
    requires b.interval > 0
  {
    var r := Refill(b, now);
    if r.tokens == 0 then (r, false) else (r.(tokens := r.tokens - 1), true)
  }

  class Limiter {
    const interval: int
    const burst: nat
    var tokens: int
    var last: Option<int>

    ghost function View(): Bucket
      reads this
    {
      Bucket(interval, burst, tokens, last)
    }

    constructor (burst: nat, interval: int)
      requires interval > 0
      ensures View() == New(burst, interval)
    {
      this.interval, this.burst, tokens, last := interval, burst, burst, None;
    }

    /** One call at time `now`: true when it was granted. */
    method AllowAt(now: int) returns (ok: bool)
      requires interval > 0
      modifies this
      ensures (View(), ok) == Allow(old(View()), now)
    {
      if last.None? {
        last := Some(now);
      }
      var elapsed := now - last.value;
      if elapsed >= interval {
        var gained := elapsed / interval;
        tokens := if tokens + gained < burst then tokens + gained else burst;
        last := Some(last.value + gained * interval);
      }
      if tokens == 0 {
        return false;
      }
      tokens := tokens - 1;
      return true;
    }
  }

  // ---------------------------------------------------------------- sequences of calls

  /** A bucket with the history of its calls: the time of the first, of the last, of each grant,
      and how many permits the burst cap threw away. */
  datatype Run = Run(bucket: Bucket, first: Option<int>, now: int, grants: seq<int>, lost: int)

  function Call(r: Run, now: int): Run
    requires r.bucket.interval > 0
  {
    var (b, ok) := Allow(r.bucket, now);
    var filled := Refill(r.bucket, now);
    var credited := if r.bucket.last.None? then 0 else (filled.last.value - r.bucket.last.value) / r.bucket.interval;
    Run(b, if r.first.None? then Some(now) else r.first, now,
        if ok then r.grants + [now] else r.grants,
        r.lost + (r.bucket.tokens + credited - filled.tokens))
  }

  function Calls(burst: nat, interval: int, times: seq<int>): (r: Run)
    requires interval > 0
    ensures r.bucket.interval == interval && r.bucket.burst == burst
  {
    if times == [] then Run(New(burst, interval), None, 0, [], 0)
    else Call(Calls(burst, interval, times[..|times| - 1]), times[|times| - 1])
  }

  predicate Nondecreasing(times: seq<int>) {
    forall i, j :: 0 <= i <= j < |times| ==> times[i] <= times[j]
  }

  /** The number of whole intervals from `first` to `t`. */
  function Grid(first: int, interval: int, t: int): int
    requires interval > 0
  {
    (t - first) / interval
  }

  // ---------------------------------------------------------------- arithmetic of the grid

  lemma {:induction false} GridStep(first: int, interval: int, k: int, now: int)
    requires interval > 0
    ensures Grid(first, interval, now) == k + (now - (first + k * interval)) / interval
    ensures 0 <= now - (first + k * interval) < interval ==> Grid(first, interval, now) == k
  {
    var rest := now - (first + k * interval);
    var q, m := rest / interval, rest % interval;
    assert now - first == (k + q) * interval + m by {
      assert rest == q * interval + m;
      assert (k + q) * interval == k * interval + q * interval;
    }
    DivUnique(now - first, interval, k + q, m);
  }

  lemma GridFloor(first: int, interval: int, t: int)
    requires interval > 0
    ensures first + Grid(first, interval, t) * interval <= t < first + Grid(first, interval, t) * interval + interval
  {
    assert t - first == Grid(first, interval, t) * interval + (t - first) % interval;
  }

  lemma {:induction false} GridSpread(first: int, interval: int, a: int, b: int, w: int)
    requires interval > 0 && 0 <= b - a <= w
    ensures Grid(first, interval, b) - Grid(first, interval, a) <= (w + interval - 1) / interval
    ensures Grid(first, interval, a) <= Grid(first, interval, b)
  {
    var ka, kb, c := Grid(first, interval, a), Grid(first, interval, b), (w + interval - 1) / interval;
    assert a - first == ka * interval + (a - first) % interval;
    assert b - first == kb * interval + (b - first) % interval;
    assert w + interval - 1 == c * interval + (w + interval - 1) % interval;
    assert (ka + c) * interval == ka * interval + c * interval;
    if kb < ka {
      OneMoreMultiple(kb, ka, interval);
    } else if ka + c < kb {
      OneMoreMultiple(ka + c, kb, interval);
    }
  }

  // ---------------------------------------------------------------- what every run keeps

  /** The bound on the grants from the i-th on, at the time credited up to. */
  ghost predicate GrantsBounded(r: Run) {
    r.first.Some? && r.bucket.interval > 0 &&
    forall i :: 0 <= i < |r.grants| ==>
      |r.grants| - i + r.bucket.tokens
        <= r.bucket.burst + Grid(r.first.value, r.bucket.interval, r.now)
                          - Grid(r.first.value, r.bucket.interval, r.grants[i])
  }

  ghost predicate PairsBounded(r: Run) {
    r.first.Some? && r.bucket.interval > 0 &&
    forall i, j :: 0 <= i <= j < |r.grants| ==>
      j - i + 1 <= r.bucket.burst + Grid(r.first.value, r.bucket.interval, r.grants[j])
                                  - Grid(r.first.value, r.bucket.interval, r.grants[i])
  }

  ghost predicate Inv(r: Run) {
    var b := r.bucket;
    && b.interval > 0 && r.first.Some? && b.last.Some? && r.first.value <= r.now
    && 0 <= b.tokens <= b.burst && r.lost >= 0
    && b.last.value == r.first.value + Grid(r.first.value, b.interval, r.now) * b.interval
    && b.tokens + |r.grants| + r.lost == b.burst + Grid(r.first.value, b.interval, r.now)
    && GrantsBounded(r) && PairsBounded(r)
    && Nondecreasing(r.grants)
    && (forall i :: 0 <= i < |r.grants| ==> r.first.value <= r.grants[i] <= r.now)
  }

  /** The refill moves `last` to the greatest grid point not after `now`. */
  lemma {:induction false} RefillToGrid(b: Bucket, first: int, before: int, now: int)
    requires b.interval > 0 && before <= now
    requires b.last == Some(first + Grid(first, b.interval, before) * b.interval) && b.tokens <= b.burst
    ensures var k0, k := Grid(first, b.interval, before), Grid(first, b.interval, now);
            && Refill(b, now).last == Some(first + k * b.interval)
            && Refill(b, now).tokens == Min(b.tokens + (k - k0), b.burst)
            && (Refill(b, now).last.value - b.last.value) / b.interval == k - k0
            && k0 <= k
  {
    var d, k0, k := b.interval, Grid(first, b.interval, before), Grid(first, b.interval, now);
    var elapsed := now - b.last.value;
    GridStep(first, d, k0, now);
    GridSpread(first, d, before, now, now - before);
    assert k == k0 + elapsed / d;
    Multiples(first, k0, k, d);
    if elapsed < d {
      assert elapsed == elapsed / d * d + elapsed % d;
      assert k == k0 by { DivUnique(elapsed, d, 0, elapsed); }
    }
  }

  lemma {:induction false} Multiples(first: int, k0: int, k: int, d: int)
    requires d > 0
    ensures first + k * d == (first + k0 * d) + (k - k0) * d
    ensures ((first + k * d) - (first + k0 * d)) / d == k - k0
  {
    assert k * d == k0 * d + (k - k0) * d;
    DivUnique((k - k0) * d, d, k - k0, 0);
  }

  lemma FirstCallInv(burst: nat, interval: int, now: int)
    requires interval > 0
    ensures Inv(Call(Run(New(burst, interval), None, 0, [], 0), now))
  {
    assert Grid(now, interval, now) == 0 by { DivUnique(0, interval, 0, 0); }
  }

  lemma CallKeepsGrantsBounded(r: Run, now: int)
    requires Inv(r) && r.now <= now
    ensures GrantsBounded(Call(r, now))
  {
    var r', d, first := Call(r, now), r.bucket.interval, r.first.value;
    RefillToGrid(r.bucket, first, r.now, now);
    forall i | 0 <= i < |r'.grants|
      ensures |r'.grants| - i + r'.bucket.tokens
              <= r.bucket.burst + Grid(first, d, now) - Grid(first, d, r'.grants[i])
    {
      if i < |r.grants| {
        assert r'.grants[i] == r.grants[i];
      }
    }
  }

  /** One more call keeps every bound: credits move the grid on by as much as they add, and a
      grant trades a permit for a grant. */
  lemma {:induction false} CallKeepsInv(r: Run, now: int)
    requires Inv(r) && r.now <= now
    ensures Inv(Call(r, now))
  {
    var r', d, first := Call(r, now), r.bucket.interval, r.first.value;
    RefillToGrid(r.bucket, first, r.now, now);
    CallKeepsGrantsBounded(r, now);
    forall i, j | 0 <= i <= j < |r'.grants|
      ensures j - i + 1 <= r.bucket.burst + Grid(first, d, r'.grants[j]) - Grid(first, d, r'.grants[i])
    {
      if j < |r.grants| {
        assert r'.grants[i] == r.grants[i] && r'.grants[j] == r.grants[j];
      } else {
        assert r'.grants[j] == now;
      }
    }
  }

  lemma {:induction false} CallsKeepInv(burst: nat, interval: int, times: seq<int>)
    requires interval > 0 && Nondecreasing(times) && times != []
    ensures Inv(Calls(burst, interval, times))
    ensures Calls(burst, interval, times).first == Some(times[0])
    ensures Calls(burst, interval, times).now == times[|times| - 1]
  {
    var init := times[..|times| - 1];
    if init == [] {
      FirstCallInv(burst, interval, times[0]);
    } else {
      CallsKeepInv(burst, interval, init);
      CallKeepsInv(Calls(burst, interval, init), times[|times| - 1]);
    }
  }

  // ---------------------------------------------------------------- over every sequence of calls

  /** Token-bucket bound: for nondecreasing call times, any grants that fall within a window of
      length `w` number at most the burst and one for each interval begun in the window. */
  lemma {:induction false} WindowBound(burst: nat, interval: int, times: seq<int>, i: nat, j: nat, w: int)
    requires interval > 0 && Nondecreasing(times)
    requires var g := Calls(burst, interval, times).grants; i <= j < |g| && g[j] - g[i] <= w
    ensures j - i + 1 <= burst + (w + interval - 1) / interval
  {
    CallsKeepInv(burst, interval, times);
    var r := Calls(burst, interval, times);
    GridSpread(r.first.value, interval, r.grants[i], r.grants[j], w);
  }

  /** The last call was granted. */
  predicate LastGranted(burst: nat, interval: int, times: seq<int>)
    requires interval > 0 && times != []
  {
    |Calls(burst, interval, times).grants| > |Calls(burst, interval, times[..|times| - 1]).grants|
  }

  /** A call at `now` would make one more grant than the bound allows in some window that ends with
      it and begins with an earlier grant or with the call itself. */
  predicate Overfull(burst: nat, interval: int, first: int, g: seq<int>, now: int)
    requires interval > 0
  {
    burst == 0 ||
    exists i :: 0 <= i < |g| && |g| - i >= burst + Grid(first, interval, now) - Grid(first, interval, g[i])
  }

  /** Some window is as full as the bound allows: the permits left are exactly what it leaves. */
  ghost predicate Tight(r: Run) {
    r.first.Some? && r.bucket.interval > 0 &&
    (r.bucket.tokens == r.bucket.burst
     || exists i :: 0 <= i < |r.grants| &&
                      r.bucket.tokens == r.bucket.burst + Grid(r.first.value, r.bucket.interval, r.now)
                                         - Grid(r.first.value, r.bucket.interval, r.grants[i]) - (|r.grants| - i))
  }

  lemma FirstCallTight(burst: nat, interval: int, now: int)
    requires interval > 0
    ensures Tight(Call(Run(New(burst, interval), None, 0, [], 0), now))
  {
    var r := Call(Run(New(burst, interval), None, 0, [], 0), now);
    if burst > 0 {
      assert r.grants[0] == now;
    }
  }

  lemma CallKeepsTight(r: Run, now: int)
    requires Inv(r) && Tight(r) && r.now <= now
    ensures Tight(Call(r, now))
  {
    var r', d, first := Call(r, now), r.bucket.interval, r.first.value;
    RefillToGrid(r.bucket, first, r.now, now);
    GridSpread(first, d, r.now, now, now - r.now);
    var filled := Refill(r.bucket, now);
    if filled.tokens == r.bucket.burst {
      if r'.grants != r.grants {
        assert r'.grants[|r.grants|] == now;
      }
    } else {
      var i :| 0 <= i < |r.grants| &&
               r.bucket.tokens == r.bucket.burst + Grid(first, d, r.now) - Grid(first, d, r.grants[i])
                                  - (|r.grants| - i);
      assert r'.grants[i] == r.grants[i];
    }
  }

  lemma {:induction false} CallsKeepTight(burst: nat, interval: int, times: seq<int>)
    requires interval > 0 && Nondecreasing(times) && times != []
    ensures Tight(Calls(burst, interval, times))
  {
    var init := times[..|times| - 1];
    if init == [] {
      FirstCallTight(burst, interval, times[0]);
    } else {
      CallsKeepTight(burst, interval, init);
      CallsKeepInv(burst, interval, init);
      CallKeepsTight(Calls(burst, interval, init), times[|times| - 1]);
    }
  }

  /** The limiter grants all it may: a call is refused exactly when granting it would break the
      window bound. */
  lemma RefusedOnlyAtTheBound(burst: nat, interval: int, times: seq<int>)
    requires interval > 0 && Nondecreasing(times) && times != []
    ensures !LastGranted(burst, interval, times) <==>
            Overfull(burst, interval, times[0], Calls(burst, interval, times[..|times| - 1]).grants, times[|times| - 1])
  {
    var init, now := times[..|times| - 1], times[|times| - 1];
    if init != [] {
      CallsKeepInv(burst, interval, init);
      CallsKeepTight(burst, interval, init);
      RefusedStep(Calls(burst, interval, init), now);
    }
  }

  lemma RefusedStep(r: Run, now: int)
    requires Inv(r) && Tight(r) && r.now <= now
    ensures Call(r, now).grants == r.grants <==>
            Overfull(r.bucket.burst, r.bucket.interval, r.first.value, r.grants, now)
  {
    var r', d, first := Call(r, now), r.bucket.interval, r.first.value;
    RefillToGrid(r.bucket, first, r.now, now);
    CallKeepsTight(r, now);
    CallKeepsInv(r, now);
  }

  /** A call is refused exactly when the permits granted before it and those the cap threw away are
      all there have been: the burst and one for each whole interval. */
  lemma RefusedExactlyWhenSpent(burst: nat, interval: int, times: seq<int>)
    requires interval > 0 && Nondecreasing(times) && times != []
    ensures !LastGranted(burst, interval, times) <==>
            |Calls(burst, interval, times[..|times| - 1]).grants| + Calls(burst, interval, times).lost
            == burst + (times[|times| - 1] - times[0]) / interval
  {
    CallsKeepInv(burst, interval, times);
  }

  /** The cap throws permits away only while all of the burst is there to be had. */
  lemma OnlyTheCapLoses(burst: nat, interval: int, times: seq<int>)
    requires interval > 0 && Nondecreasing(times) && |times| > 1
    requires Calls(burst, interval, times).lost > Calls(burst, interval, times[..|times| - 1]).lost
    ensures |Calls(burst, interval, times[..|times| - 1]).grants| + Calls(burst, interval, times).lost
            == (times[|times| - 1] - times[0]) / interval
  {
    CallsKeepInv(burst, interval, times[..|times| - 1]);
    LossStep(Calls(burst, interval, times[..|times| - 1]), times[|times| - 1]);
  }

  lemma LossStep(r: Run, now: int)
    requires Inv(r) && r.now <= now && Call(r, now).lost > r.lost
    ensures |r.grants| + Call(r, now).lost == Grid(r.first.value, r.bucket.interval, now)
  {
    RefillToGrid(r.bucket, r.first.value, r.now, now);
  }

  /** `last` is always the greatest point of the grid laid from the first call that is not after
      the latest call. */
  lemma {:induction false} LastIsOnGrid(burst: nat, interval: int, times: seq<int>)
    requires interval > 0 && Nondecreasing(times) && times != []
    ensures var b, now := Calls(burst, interval, times).bucket, times[|times| - 1];
            && b.last == Some(times[0] + Grid(times[0], interval, now) * interval)
            && b.last.value <= now < b.last.value + interval
  {
    var now := times[|times| - 1];
    GridFloor(times[0], interval, now);
    assert Calls(burst, interval, times).bucket.last == Some(times[0] + Grid(times[0], interval, now) * interval) by {
      CallsKeepInv(burst, interval, times);
    }
  }

  /** Conservation: permits held, permits spent and permits the cap threw away account exactly
      for the burst and the whole intervals elapsed; the cap alone ever loses any. */
  lemma {:induction false} PermitsAreConserved(burst: nat, interval: int, times: seq<int>)
    requires interval > 0 && Nondecreasing(times) && times != []
    ensures var r := Calls(burst, interval, times);
            && 0 <= r.bucket.tokens <= burst && r.lost >= 0
            && r.bucket.tokens + |r.grants| + r.lost == burst + (times[|times| - 1] - times[0]) / interval
  {
    CallsKeepInv(burst, interval, times);
  }
}
