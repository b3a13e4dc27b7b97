/**
 The Redis token bucket
 (backend/services/gateway/internal/infrastructure/rate_limiter/redis_limiter.go), in exact reals.
 */
module TokenBucket {
  import opened Domain

  // Tokens per second and bucket size, both positive once the limiter is enabled.
  datatype Profile = Profile(rate: int, burst: int) {
    predicate Enabled() { 0 < rate && 0 < burst }
    function PerMs(): real { rate as real / 1000.0 }
  }

  // The stored hash.
  datatype Bucket = Bucket(tokens: real, updated: int)

  function MinReal(a: real, b: real): real { if a <= b then a else b }

  function Elapsed(from: int, now: int): int { if now < from then 0 else now - from }

  // The tokens a request at time now finds.
  function Refilled(p: Profile, b: Option<Bucket>, now: int): real {
    match b
    case None => p.burst as real
    case Some(bucket) => MinReal(p.burst as real, bucket.tokens + p.PerMs() * Elapsed(bucket.updated, now) as real)
  }

  function Decide(p: Profile, b: Option<Bucket>, now: int): bool { 1.0 <= Refilled(p, b, now) }

  function Next(p: Profile, b: Option<Bucket>, now: int): Bucket {
    Bucket(Refilled(p, b, now) - (if Decide(p, b, now) then 1.0 else 0.0), now)
  }

  // ---- the script ----

  // max(1 s, 2 * burst / rate), in whole milliseconds.
  function TtlMs(p: Profile): int
    requires p.Enabled()
  {
    if 2000 * p.burst / p.rate < 1000 then 1000 else 2000 * p.burst / p.rate
  }

  class RedisKey {
    var bucket: Option<Bucket>
    var expiresAt: int

    constructor ()
      ensures bucket == None
    {
      bucket := None;
      expiresAt := 0;
    }

    // A read finds nothing once the key has expired.
    function Visible(clock: int): Option<Bucket>
      reads this
    {
      if bucket.Some? && clock < expiresAt then bucket else None
    }

    method Eval(clock: int, now: int, p: Profile, ttl: int) returns (allowed: bool)
      requires p.Enabled()
      modifies this
      ensures allowed == Decide(p, old(Visible(clock)), now)
      ensures bucket == Some(Next(p, old(Visible(clock)), now)) && expiresAt == clock + ttl
    {
      var stored := Visible(clock);
      var tokens, updated := p.burst as real, now;
      if stored.Some? {
        tokens, updated := stored.value.tokens, stored.value.updated;
      }
      var elapsed := now - updated;
      if elapsed < 0 {
        elapsed := 0;
      }
      tokens := MinReal(p.burst as real, tokens + elapsed as real / 1000.0 * p.rate as real);
      PerMillisecond(p, elapsed);
      allowed := tokens >= 1.0;
      if allowed {
        tokens := tokens - 1.0;
      }
      bucket := Some(Bucket(tokens, now));
      expiresAt := clock + ttl;
    }

    // get decision: a profile without a rate or a size limits nothing and stores nothing.
    method Decision(clock: int, p: Profile) returns (allowed: bool)
      modifies this
      ensures !p.Enabled() ==> allowed && bucket == old(bucket) && expiresAt == old(expiresAt)
      ensures p.Enabled() ==> allowed == Decide(p, old(Visible(clock)), clock)
                              && bucket == Some(Next(p, old(Visible(clock)), clock)) && expiresAt == clock + TtlMs(p)
    {
      if p.rate <= 0 || p.burst <= 0 {
        return true;
      }
      allowed := Eval(clock, clock, p, TtlMs(p));
    }
  }

  lemma PerMillisecond(p: Profile, elapsed: int)
    ensures elapsed as real / 1000.0 * p.rate as real == p.PerMs() * elapsed as real
  {
    var e, r := elapsed as real, p.rate as real;
    assert e / 1000.0 * r == r / 1000.0 * e;
  }

  // ---- runs on one key, without expiry ----

  function After(p: Profile, ts: seq<int>): Option<Bucket> {
    if ts == [] then None else Some(Next(p, After(p, ts[..|ts| - 1]), ts[|ts| - 1]))
  }

  function Level(p: Profile, ts: seq<int>, n: nat): real
    requires n < |ts|
  { Refilled(p, After(p, ts[..n]), ts[n]) }

  predicate Allowed(p: Profile, ts: seq<int>, n: nat)
    requires n < |ts|
  { Decide(p, After(p, ts[..n]), ts[n]) }

  // Virtual time: the clock without its steps back.
  function Virtual(ts: seq<int>, n: nat): int
    requires n < |ts|
  { if n == 0 then 0 else Virtual(ts, n - 1) + Elapsed(ts[n - 1], ts[n]) }

  /** Virtual time advances by the step of the clock, and stands still when the clock steps back. */
  lemma VirtualAdvances(ts: seq<int>, n: nat)
    requires n + 1 < |ts|
    ensures Virtual(ts, 0) == 0
    ensures Virtual(ts, n + 1) == Virtual(ts, n) + if ts[n] <= ts[n + 1] then ts[n + 1] - ts[n] else 0
  {}

  // Requests allowed among i..n-1.
  function AllowedIn(p: Profile, ts: seq<int>, i: nat, n: nat): nat
    requires i <= n <= |ts|
  {
    if i == n then 0 else AllowedIn(p, ts, i, n - 1) + if Allowed(p, ts, n - 1) then 1 else 0
  }

  // What a full bucket gives out at most in that many milliseconds: burst + rate * ms / 1000.
  function Grant(p: Profile, ms: int): real { p.burst as real + p.PerMs() * ms as real }

  // What a full bucket at request i leaves for request n.
  function Left(p: Profile, ts: seq<int>, i: nat, n: nat): real
    requires i <= n < |ts|
  {
    Grant(p, Virtual(ts, n) - Virtual(ts, i)) - AllowedIn(p, ts, i, n) as real
  }

  lemma MulAdd(q: real, x: int, y: int)
    ensures q * (x + y) as real == q * x as real + q * y as real
  {
    assert (x + y) as real == x as real + y as real;
  }

  lemma LevelStep(p: Profile, ts: seq<int>, n: nat)
    requires n + 1 < |ts|
    ensures Level(p, ts, n + 1)
         == MinReal(p.burst as real, Level(p, ts, n) - (if Allowed(p, ts, n) then 1.0 else 0.0)
                                     + p.PerMs() * Elapsed(ts[n], ts[n + 1]) as real)
  {
    assert ts[..n + 1][..n] == ts[..n];
  }

  /**
   From one request to the next the bucket loses a token if the request was allowed, gains rate / 1000 a
   millisecond, up to the burst, and gains nothing when the clock steps back; at first it is full.
   */
  lemma TokensFound(p: Profile, ts: seq<int>, n: nat)
    requires p.Enabled() && n + 1 < |ts|
    ensures Level(p, ts, 0) == p.burst as real
    ensures
      var left := Level(p, ts, n) - (if 1.0 <= Level(p, ts, n) then 1.0 else 0.0);
      && (ts[n + 1] <= ts[n] ==> Level(p, ts, n + 1) == left)
      && (ts[n] < ts[n + 1] ==>
            var more := 1000.0 * left + p.rate as real * (ts[n + 1] - ts[n]) as real;
            1000.0 * Level(p, ts, n + 1) == if more <= 1000.0 * p.burst as real then more else 1000.0 * p.burst as real)
  {
    hide Profile.PerMs, Level, MinReal;
    FirstLevel(p, ts);
    LevelStep(p, ts, n);
    LevelDecides(p, ts, n);
    LevelAtMostBurst(p, ts, n);
    var left := Level(p, ts, n) - (if 1.0 <= Level(p, ts, n) then 1.0 else 0.0);
    if ts[n] < ts[n + 1] {
      PerMsIs(p, ts[n + 1] - ts[n]);
      ScaledMin(p.burst as real, left, p.PerMs() * (ts[n + 1] - ts[n]) as real, p.rate as real * (ts[n + 1] - ts[n]) as real);
    } else {
      PerMsNothing(p);
      LeastIsSecond(p.burst as real, left);
    }
  }

  lemma FirstLevel(p: Profile, ts: seq<int>)
    requires ts != []
    ensures Level(p, ts, 0) == p.burst as real
  {
    assert ts[..0] == [];
  }

  lemma LeastIsSecond(a: real, b: real)
    requires b <= a
    ensures MinReal(a, b) == b
  {}

  lemma ScaledMin(burst: real, left: real, more: real, scaled: real)
    requires 1000.0 * more == scaled
    ensures 1000.0 * MinReal(burst, left + more)
         == if 1000.0 * left + scaled <= 1000.0 * burst then 1000.0 * left + scaled else 1000.0 * burst
  {}

  lemma PerMsIs(p: Profile, ms: int)
    ensures 1000.0 * (p.PerMs() * ms as real) == p.rate as real * ms as real
  {
    var r, m := p.rate as real, ms as real;
    assert 1000.0 * (r / 1000.0 * m) == r * m;
  }

  lemma PerMsNothing(p: Profile)
    ensures p.PerMs() * 0 as real == 0.0
  {}

  lemma {:induction false} LevelAtMostBurst(p: Profile, ts: seq<int>, n: nat)
    requires n < |ts|
    ensures Level(p, ts, n) <= p.burst as real
  {}

  lemma LeftStep(p: Profile, ts: seq<int>, i: nat, n: nat)
    requires i <= n && n + 1 < |ts|
    ensures Left(p, ts, i, n + 1)
         == Left(p, ts, i, n) - (if Allowed(p, ts, n) then 1.0 else 0.0) + p.PerMs() * Elapsed(ts[n], ts[n + 1]) as real
  {
    hide Grant, Allowed, Elapsed;
    GrantAdd(p, Virtual(ts, n) - Virtual(ts, i), Elapsed(ts[n], ts[n + 1]));
  }

  lemma GrantAdd(p: Profile, x: int, y: int)
    ensures Grant(p, x + y) == Grant(p, x) + p.PerMs() * y as real
  {
    MulAdd(p.PerMs(), x, y);
  }

  // The level is the least of what full buckets at earlier requests would have left.
  lemma {:induction false} LevelIsLeast(p: Profile, ts: seq<int>, n: nat) returns (i: nat)
    requires n < |ts|
    ensures i <= n && Level(p, ts, n) == Left(p, ts, i, n)
    ensures forall j: nat | j <= n :: Level(p, ts, n) <= Left(p, ts, j, n)
  {
    hide Level, Left, Allowed, Profile.PerMs, Elapsed;
    if n == 0 {
      i := 0;
      FullAtStart(p, ts);
    } else {
      i := LevelIsLeast(p, ts, n - 1);
      LevelStep(p, ts, n - 1);
      FullNow(p, ts, n);
      forall j: nat | j < n ensures Level(p, ts, n) <= Left(p, ts, j, n) {
        LeftStep(p, ts, j, n - 1);
        assert Level(p, ts, n - 1) <= Left(p, ts, j, n - 1);
      }
      LeftStep(p, ts, i, n - 1);
      if Level(p, ts, n) == p.burst as real { i := n; }
    }
  }

  lemma FullAtStart(p: Profile, ts: seq<int>)
    requires ts != []
    ensures Level(p, ts, 0) == Left(p, ts, 0, 0) == p.burst as real
  {
    assert ts[..0] == [];
  }

  lemma FullNow(p: Profile, ts: seq<int>, n: nat)
    requires n < |ts|
    ensures Left(p, ts, n, n) == p.burst as real
  {}

  // Allowing request n keeps the count since every earlier request within the burst plus the rate over
  // the virtual time since.
  predicate Fits(p: Profile, ts: seq<int>, n: nat)
    requires n < |ts|
  {
    forall i | 0 <= i <= n :: (AllowedIn(p, ts, i, n) + 1) as real <= Grant(p, Virtual(ts, n) - Virtual(ts, i))
  }

  /**
   The bucket is its declarative specification: for any timestamps, request n is allowed exactly if
   for every earlier request i, allowing it keeps the count since i within the burst plus the rate
   over the virtual time since i.
   */
  lemma AllowedIff(p: Profile, ts: seq<int>, n: nat)
    requires n < |ts|
    ensures Allowed(p, ts, n) <==> Fits(p, ts, n)
  {
    hide Level, Virtual, AllowedIn, Grant;
    var i := LevelIsLeast(p, ts, n);
    LevelDecides(p, ts, n);
    if Allowed(p, ts, n) {
      forall j | 0 <= j <= n
        ensures (AllowedIn(p, ts, j, n) + 1) as real <= Grant(p, Virtual(ts, n) - Virtual(ts, j))
      {
        assert 1.0 <= Left(p, ts, j, n);
      }
    } else {
      assert Left(p, ts, i, n) < 1.0;
      assert !((AllowedIn(p, ts, i, n) + 1) as real <= Grant(p, Virtual(ts, n) - Virtual(ts, i)));
    }
  }

  lemma LevelDecides(p: Profile, ts: seq<int>, n: nat)
    requires n < |ts|
    ensures Allowed(p, ts, n) <==> 1.0 <= Level(p, ts, n)
  {}

  lemma {:induction false} VirtualGrows(ts: seq<int>, i: nat, n: nat)
    requires i <= n < |ts|
    ensures Virtual(ts, i) <= Virtual(ts, n)
  {
    if i < n { VirtualGrows(ts, i, n - 1); }
  }

  lemma MulMonotone(q: real, x: int, y: int)
    requires 0.0 <= q && x <= y
    ensures q * x as real <= q * y as real
  {
    assert 0.0 <= q * (y - x) as real;
    MulAdd(q, x, y - x);
  }

  lemma GrantMonotone(p: Profile, x: int, y: int)
    requires p.Enabled() && x <= y
    ensures Grant(p, x) <= Grant(p, y)
  {
    assert 0.0 <= p.PerMs();
    MulMonotone(p.PerMs(), x, y);
  }

  lemma GrantNothing(p: Profile)
    requires p.Enabled()
    ensures 0.0 <= Grant(p, 0)
  {}

  /** Any window of requests admits at most the burst plus the rate over its virtual length. */
  lemma {:induction false} WindowBound(p: Profile, ts: seq<int>, i: nat, n: nat)
    requires p.Enabled() && i <= n < |ts|
    ensures AllowedIn(p, ts, i, n + 1) as real <= Grant(p, Virtual(ts, n) - Virtual(ts, i))
  {
    hide Grant, Allowed, Virtual;
    if Allowed(p, ts, n) {
      AllowedIff(p, ts, n);
    } else if i == n {
      GrantNothing(p);
    } else {
      WindowBound(p, ts, i, n - 1);
      VirtualGrows(ts, n - 1, n);
      GrantMonotone(p, Virtual(ts, n - 1) - Virtual(ts, i), Virtual(ts, n) - Virtual(ts, i));
    }
  }

  predicate Clock(ts: seq<int>) { forall i, j | 0 <= i <= j < |ts| :: ts[i] <= ts[j] }

  lemma {:induction false} VirtualIsClock(ts: seq<int>, n: nat)
    requires Clock(ts) && n < |ts|
    ensures Virtual(ts, n) == ts[n] - ts[0]
  {
    if n > 0 { VirtualIsClock(ts, n - 1); }
  }

  /** With a clock that never steps back, every window of T milliseconds admits at most burst + rate * T / 1000. */
  lemma WindowOf(p: Profile, ts: seq<int>, i: nat, n: nat, t: nat)
    requires p.Enabled() && Clock(ts) && i <= n < |ts| && ts[n] - ts[i] <= t
    ensures AllowedIn(p, ts, i, n + 1) as real <= Grant(p, t)
  {
    hide Grant, AllowedIn, Virtual;
    WindowBound(p, ts, i, n);
    VirtualIsClock(ts, i);
    VirtualIsClock(ts, n);
    GrantMonotone(p, ts[n] - ts[i], t);
  }

  /** The same in whole numbers: 1000 times the admitted requests are at most 1000 times the burst plus rate times T. */
  lemma WindowInNumbers(p: Profile, ts: seq<int>, i: nat, n: nat, t: nat)
    requires p.Enabled() && Clock(ts) && i <= n < |ts| && ts[n] - ts[i] <= t
    ensures 1000 * AllowedIn(p, ts, i, n + 1) <= 1000 * p.burst + p.rate * t
  {
    hide AllowedIn, Profile.PerMs;
    WindowOf(p, ts, i, n, t);
    PerMsIs(p, t);
    InNumbers(AllowedIn(p, ts, i, n + 1), p.burst, p.rate, t, p.PerMs() * t as real);
  }

  lemma InNumbers(a: int, b: int, r: int, t: int, q: real)
    requires a as real <= b as real + q && 1000.0 * q == r as real * t as real
    ensures 1000 * a <= 1000 * b + r * t
  {
    var m := r * t;
    assert m as real == r as real * t as real;
    assert 1000.0 * a as real <= 1000.0 * b as real + m as real;
    Scaled(a, b, m);
  }

  lemma Scaled(a: int, b: int, m: int)
    requires 1000.0 * a as real <= 1000.0 * b as real + m as real
    ensures 1000 * a <= 1000 * b + m
  {
    assert (1000 * a) as real == 1000.0 * a as real && (1000 * b + m) as real == 1000.0 * b as real + m as real;
  }

  // ---- expiry ----

  lemma TtlCoversRefill(p: Profile)
    requires p.Enabled()
    ensures 1000 * p.burst <= TtlMs(p) * p.rate && 1000 <= TtlMs(p)
    ensures TtlMs(p) == 1000 || (TtlMs(p) * p.rate <= 2000 * p.burst && 2000 * p.burst < (TtlMs(p) + 1) * p.rate)
  {
    var x := 2000 * p.burst / p.rate;
    assert 2000 * p.burst == x * p.rate + 2000 * p.burst % p.rate;
    if x < 1000 {
      assert x + 1 <= 1000;
      assert 2000 * p.burst < (x + 1) * p.rate;
      MulLe(x + 1, 1000, p.rate);
    } else {
      MulLe(2, x, p.rate);
      assert 2 * (x * p.rate) >= x * p.rate + 2 * p.rate;
    }
  }

  lemma MulLe(a: int, b: int, r: int)
    requires a <= b && 0 <= r
    ensures a * r <= b * r
  {}

  lemma RefillsIn(p: Profile, elapsed: int)
    requires p.Enabled() && TtlMs(p) <= elapsed
    ensures p.burst as real <= p.PerMs() * elapsed as real
  {
    TtlCoversRefill(p);
    MulLe(TtlMs(p), elapsed, p.rate);
    var e, r, b := elapsed as real, p.rate as real, p.burst as real;
    assert (elapsed * p.rate) as real == e * r;
    assert (1000 * p.burst) as real == 1000.0 * b;
    assert 1000.0 * b <= e * r;
    assert r / 1000.0 * e == e * r / 1000.0;
  }

  // Tokens never go below zero.
  lemma {:induction false} NeverNegative(p: Profile, ts: seq<int>)
    requires p.Enabled() && ts != []
    ensures After(p, ts).Some? && 0.0 <= After(p, ts).value.tokens && After(p, ts).value.updated == ts[|ts| - 1]
  {
    var before := ts[..|ts| - 1];
    if before != [] {
      NeverNegative(p, before);
      var b := After(p, before).value;
      assert 0.0 <= p.PerMs();
      MulMonotone(p.PerMs(), 0, Elapsed(b.updated, ts[|ts| - 1]));
    }
  }

  // The store that expires keys, for one clock on both sides: what a request finds.
  function Found(p: Profile, ts: seq<int>, now: int): Option<Bucket>
    requires p.Enabled()
    decreases |ts|, 1
  {
    if ts == [] || ts[|ts| - 1] + TtlMs(p) <= now then None else Some(Stored(p, ts))
  }

  function Stored(p: Profile, ts: seq<int>): Bucket
    requires p.Enabled() && ts != []
    decreases |ts|, 0
  {
    Next(p, Found(p, ts[..|ts| - 1], ts[|ts| - 1]), ts[|ts| - 1])
  }

  /**
   Expiry is unobservable: with one clock that never steps back, the store that expires keys holds
   the same bucket after every request, and so makes the same decisions, as one that never does.
   */
  lemma {:induction false} ExpiryUnobservable(p: Profile, ts: seq<int>, now: int)
    requires p.Enabled() && Clock(ts) && (ts != [] ==> ts[|ts| - 1] <= now)
    ensures ts != [] ==> Some(Stored(p, ts)) == After(p, ts)
    ensures Refilled(p, Found(p, ts, now), now) == Refilled(p, After(p, ts), now)
    ensures Decide(p, Found(p, ts, now), now) == Decide(p, After(p, ts), now)
    decreases |ts|
  {
    hide Refilled, TtlMs;
    if ts != [] {
      var last := ts[|ts| - 1];
      ExpiryUnobservable(p, ts[..|ts| - 1], last);
      NeverNegative(p, ts);
      if last + TtlMs(p) <= now { LateIsFull(p, After(p, ts).value, now); }
    }
  }

  /**
   The limiter as it runs, expiry included: with one clock that never steps back, a key answers a run of
   requests as the declarative specification does. A profile that limits nothing allows all.
   */
  method AnswerAll(key: RedisKey, p: Profile, ts: seq<int>) returns (answers: seq<bool>)
    requires Clock(ts) && key.bucket == None
    modifies key
    ensures |answers| == |ts|
    ensures !p.Enabled() ==> forall n | 0 <= n < |ts| :: answers[n]
    ensures p.Enabled() ==> forall n | 0 <= n < |ts| :: answers[n] == Fits(p, ts, n)
  {
    hide Fits, Decide, Next, TtlMs, AllowedIn, Grant, Virtual;
    answers := [];
    for n := 0 to |ts|
      invariant |answers| == n
      invariant !p.Enabled() ==> forall m | 0 <= m < n :: answers[m]
      invariant p.Enabled() ==> forall m | 0 <= m < n :: answers[m] == Allowed(p, ts, m)
      invariant p.Enabled() ==> Holds(key, p, ts[..n])
    {
      if p.Enabled() { OneRequest(key, p, ts, n); }
      var allowed := key.Decision(ts[n], p);
      answers := answers + [allowed];
    }
    forall n | 0 <= n < |ts| ensures Allowed(p, ts, n) == Fits(p, ts, n) { AllowedIff(p, ts, n); }
  }

  // The key after these requests.
  predicate Holds(key: RedisKey, p: Profile, ts: seq<int>)
    requires p.Enabled()
    reads key
  {
    if ts == [] then key.bucket == None
    else key.bucket == Some(Stored(p, ts)) && key.expiresAt == ts[|ts| - 1] + TtlMs(p)
  }

  lemma OneRequest(key: RedisKey, p: Profile, ts: seq<int>, n: nat)
    requires p.Enabled() && Clock(ts) && n < |ts| && Holds(key, p, ts[..n])
    ensures Decide(p, key.Visible(ts[n]), ts[n]) == Allowed(p, ts, n)
    ensures Next(p, key.Visible(ts[n]), ts[n]) == Stored(p, ts[..n + 1])
  {
    hide Decide, Next, TtlMs, Clock;
    assert key.Visible(ts[n]) == Found(p, ts[..n], ts[n]);
    assert ts[..n + 1][..n] == ts[..n];
    ClockOfPrefix(ts, n);
    ExpiryUnobservable(p, ts[..n], ts[n]);
  }

  lemma ClockOfPrefix(ts: seq<int>, n: nat)
    requires Clock(ts) && n < |ts|
    ensures Clock(ts[..n]) && (n > 0 ==> ts[..n][n - 1] <= ts[n])
  {}

  // A bucket nobody touched for the time to live is full again, as a missing one is.
  lemma LateIsFull(p: Profile, b: Bucket, now: int)
    requires p.Enabled() && 0.0 <= b.tokens && b.updated + TtlMs(p) <= now
    ensures Refilled(p, Some(b), now) == Refilled(p, None, now)
  {
    hide TtlMs;
    TtlPositive(p);
    RefillsIn(p, now - b.updated);
  }

  lemma TtlPositive(p: Profile)
    requires p.Enabled()
    ensures 1000 <= TtlMs(p)
  {}
}
