/** When the composite bound holds.

    If an idle time to live does not refill a burst, Redis hands out a burst again each time
    a key has expired, while the fallback hands out all that its own bound allows. A run of
    the steps of concurrent requests then exceeds the sum of the two bounds. */
module CompositeExact {
  import opened Wrappers
  import opened TokenBucket
  import opened PartitionedLimiter
  import opened FloodBound
  import opened RedisLimiter
  import opened RedisFallback

  /** The bound of `InterleavingIsBounded`, from any moment of any interleaving. */
  ghost predicate AlwaysWithin(p: Params) {
    forall start: real, past: seq<Action>, from: real, window: seq<Action>, end: real, key: string
      | && ActInOrder(start, past) && LastActed(start, past) <= from && KeepsBucket(p, Initial(p, start), past, key)
        && ActInOrder(from, window) && LastActed(from, window) <= end
        && KeepsBucket(p, Performed(p, Initial(p, start), past), window, key) ::
      WithinBoth(p, Performed(p, Initial(p, start), past), from, window, end, key)
  }

  predicate WithinBoth(p: Params, s: System, from: real, window: seq<Action>, end: real, key: string) {
    PaidFor(p, s, window, key) as real
    <= Allowance(p.redis, from, end + 1.0) + Allowance(LimitsOf(p.fallback), from, end)
  }

  // ----- a run of one key

  const KEY := "k"

  /** A run from instant 0 with its state, what it has admitted, and its last instant. */
  ghost predicate Ran(p: Params, actions: seq<Action>, s: System, paid: nat, now: real) {
    && ActInOrder(0.0, actions) && LastActed(0.0, actions) == now
    && KeepsBucket(p, Initial(p, 0.0), actions, KEY)
    && Performed(p, Initial(p, 0.0), actions) == s && PaidFor(p, Initial(p, 0.0), actions, KEY) == paid
  }

  lemma RunOn(p: Params, actions: seq<Action>, s: System, paid: nat, was: real, a: Action)
    requires Ran(p, actions, s, paid, was) && was <= a.now
    requires OwnBucketAt(p, s, a, KEY) && Pays(p, s, a, KEY)
    ensures Ran(p, actions + [a], Perform(p, s, a), paid + 1, a.now)
  {
    assert (actions + [a])[..|actions|] == actions;
  }

  // ----- Redis

  /** What the key's bucket in Redis holds. */
  function InRedis(p: Params, redis: map<string, Stored>, now: real): real {
    match Live(p, redis, KEY, now)
    case None => p.redis.burst
    case Some(b) => Level(p.redis, b, Unix(now))
  }

  lemma ScriptPays(p: Params, s: System, now: real)
    requires p.ttl > 0.0 && InRedis(p, s.redis, now) >= 1.0
    ensures var a := Script(KEY, now, true);
      && Pays(p, s, a, KEY) && Perform(p, s, a).fallback == s.fallback
      && InRedis(p, Perform(p, s, a).redis, now) == InRedis(p, s.redis, now) - 1.0
      && KEY in Perform(p, s, a).redis && Perform(p, s, a).redis[KEY].ranAt == now
  {
    var live := Live(p, s.redis, KEY, now);
    var b := if live.Some? then live.value else Created(p.redis, Unix(now));
    ScriptIsBucketStep(p.redis, live, Unix(now));
    LevelAfterStep(p.redis, b, Unix(now));
    NoRefillAtOnce(p.redis, Unix(now));
  }

  /** `n` script runs at one instant. */
  lemma {:induction false} Scripts(p: Params, actions: seq<Action>, s: System, paid: nat, was: real, now: real, n: nat)
      returns (more: seq<Action>, t: System)
    requires p.ttl > 0.0 && Ran(p, actions, s, paid, was) && was <= now
    requires n >= 1 && InRedis(p, s.redis, now) >= n as real
    ensures Ran(p, more, t, paid + n, now) && t.fallback == s.fallback
    ensures KEY in t.redis && t.redis[KEY].ranAt == now
    decreases n
  {
    var a := Script(KEY, now, true);
    ScriptPays(p, s, now);
    RunOn(p, actions, s, paid, was, a);
    more, t := actions + [a], Perform(p, s, a);
    if n > 1 {
      more, t := Scripts(p, more, t, paid + 1, now, now, n - 1);
    }
  }

  // ----- the fallback

  /** What the key's bucket in the fallback holds for a call at `now`. */
  function InFallback(c: Config, t: Table, now: real): real {
    var u := Cleaned(c, t, now);
    if KEY in u.partitions then Level(LimitsOf(c), u.partitions[KEY].bucket, now) else LimitsOf(c).burst
  }

  /** No other key has a bucket, and the key's was kept in its range up to `now`. */
  predicate OnlyKey(c: Config, t: Table, now: real) {
    && t.partitions.Keys <= {KEY}
    && (KEY in t.partitions ==> 0.0 <= t.partitions[KEY].bucket.tokens && t.partitions[KEY].bucket.last <= now)
  }

  lemma OwnBucket(c: Config, t: Table, now: real)
    requires Normal(c) && t.partitions.Keys <= {KEY}
    ensures Route(c, t, KEY, now) != Overflow
  {
    var u := Cleaned(c, t, now);
    if KEY !in u.partitions {
      assert u.partitions.Keys == {};
      assert |u.partitions.Keys| == 0;
    }
  }

  lemma FallbackPays(p: Params, s: System, now: real)
    requires Normal(p.fallback) && OnlyKey(p.fallback, s.fallback, now)
    requires InFallback(p.fallback, s.fallback, now) >= 1.0
    ensures var a := Fallback(KEY, now);
      && OwnBucketAt(p, s, a, KEY) && Pays(p, s, a, KEY) && Perform(p, s, a).redis == s.redis
      && OnlyKey(p.fallback, Perform(p, s, a).fallback, now)
      && InFallback(p.fallback, Perform(p, s, a).fallback, now) == InFallback(p.fallback, s.fallback, now) - 1.0
  {
    var c := p.fallback;
    var u := Cleaned(c, s.fallback, now);
    OwnBucket(c, s.fallback, now);
    var b := if KEY in u.partitions then u.partitions[KEY].bucket else Created(LimitsOf(c), now);
    NoRefillAtOnce(LimitsOf(c), now);
    LevelAfterStep(LimitsOf(c), b, now);
    var v := CallStep(c, s.fallback, OneReading(KEY, now));
    assert v.partitions[KEY] == Entry(Step(LimitsOf(c), b, now), now);
    assert KEY in Cleaned(c, v, now).partitions;
  }

  /** `n` fallback calls at one instant. */
  lemma {:induction false} Calls(p: Params, actions: seq<Action>, s: System, paid: nat, was: real, now: real, n: nat)
      returns (more: seq<Action>, t: System)
    requires Normal(p.fallback) && Ran(p, actions, s, paid, was) && was <= now
    requires OnlyKey(p.fallback, s.fallback, now)
    requires n >= 1 && InFallback(p.fallback, s.fallback, now) >= n as real
    ensures Ran(p, more, t, paid + n, now) && t.redis == s.redis
    ensures OnlyKey(p.fallback, t.fallback, now)
    decreases n
  {
    var a := Fallback(KEY, now);
    FallbackPays(p, s, now);
    RunOn(p, actions, s, paid, was, a);
    more, t := actions + [a], Perform(p, s, a);
    if n > 1 {
      more, t := Calls(p, more, t, paid + 1, now, now, n - 1);
    }
  }

  /** A second refills what a second may admit, evicted or not. */
  lemma SecondRefills(c: Config, t: Table, second: nat)
    requires Normal(c) && OnlyKey(c, t, second as real) && c.requestsPerSecond <= c.burst
    ensures OnlyKey(c, t, (second + 1) as real)
    ensures InFallback(c, t, (second + 1) as real) >= c.requestsPerSecond as real
  {
    if KEY in t.partitions {
      RefillOfLongerSpan(LimitsOf(c), 0.0, 1.0, t.partitions[KEY].bucket.last, (second + 1) as real);
    }
  }

  /** `n` seconds of fallback calls at the configured rate. */
  lemma {:induction false} Trickle(p: Params, actions: seq<Action>, s: System, paid: nat, second: nat, n: nat)
      returns (more: seq<Action>, t: System)
    requires Normal(p.fallback) && p.fallback.requestsPerSecond <= p.fallback.burst
    requires Ran(p, actions, s, paid, second as real) && OnlyKey(p.fallback, s.fallback, second as real)
    ensures Ran(p, more, t, paid + n * p.fallback.requestsPerSecond, (second + n) as real) && t.redis == s.redis
    ensures OnlyKey(p.fallback, t.fallback, (second + n) as real)
    decreases n
  {
    more, t := actions, s;
    if n > 0 {
      var each := p.fallback.requestsPerSecond;
      more, t := Trickle(p, actions, s, paid, second, n - 1);
      SecondRefills(p.fallback, t.fallback, second + (n - 1));
      more, t := Calls(p, more, t, paid + (n - 1) * each, (second + (n - 1)) as real, (second + n) as real, each);
      assert paid + (n - 1) * each + each == paid + n * each;
    }
  }

  // ----- rounds

  /** The configuration's numbers; the limits of the fallback are at least one. */
  predicate Shape(p: Params, rate: nat, burst: nat, ttl: nat) {
    && p.redis == Limits(burst as real, rate as real) && p.ttl == ttl as real && ttl >= 1
    && Normal(p.fallback) && p.fallback.burst == burst
    && p.fallback.requestsPerSecond == (if rate == 0 then 1 else rate)
    && ttl * rate < burst
  }

  lemma RateWithinBurst(rate: nat, burst: nat, ttl: nat)
    requires ttl >= 1 && ttl * rate < burst
    ensures rate < burst
  {
    assert ttl * rate >= rate;
  }

  /** A burst from each, at instant 0. */
  lemma Opening(p: Params, rate: nat, burst: nat, ttl: nat) returns (actions: seq<Action>, s: System)
    requires Shape(p, rate, burst, ttl)
    ensures Ran(p, actions, s, 2 * burst, 0.0) && OnlyKey(p.fallback, s.fallback, 0.0)
    ensures KEY in s.redis && s.redis[KEY].ranAt == 0.0
  {
    RateWithinBurst(rate, burst, ttl);
    actions, s := Scripts(p, [], Initial(p, 0.0), 0, 0.0, 0.0, burst);
    actions, s := Calls(p, actions, s, burst, 0.0, 0.0, burst);
  }

  /** A time to live later: the fallback at its rate all the time, and a burst from Redis,
      where the key has expired. */
  lemma Round(p: Params, rate: nat, burst: nat, ttl: nat, actions: seq<Action>, s: System, paid: nat, second: nat)
      returns (more: seq<Action>, t: System)
    requires Shape(p, rate, burst, ttl) && Ran(p, actions, s, paid, second as real)
    requires OnlyKey(p.fallback, s.fallback, second as real) && KEY in s.redis && s.redis[KEY].ranAt == second as real
    ensures Ran(p, more, t, paid + (ttl * p.fallback.requestsPerSecond + burst), (second + ttl) as real)
    ensures OnlyKey(p.fallback, t.fallback, (second + ttl) as real)
    ensures KEY in t.redis && t.redis[KEY].ranAt == (second + ttl) as real
  {
    RateWithinBurst(rate, burst, ttl);
    var now := (second + ttl) as real;
    var trickled := paid + ttl * p.fallback.requestsPerSecond;
    more, t := Trickle(p, actions, s, paid, second, ttl);
    more, t := Scripts(p, more, t, trickled, now, now, burst);
  }

  lemma OneMore(n: nat, each: nat)
    requires n > 0
    ensures (n - 1) * each + each == n * each
  {
  }

  lemma {:induction false} Rounds(p: Params, rate: nat, burst: nat, ttl: nat, n: nat)
      returns (actions: seq<Action>, s: System, paid: nat, second: nat)
    requires Shape(p, rate, burst, ttl)
    ensures paid == 2 * burst + n * (ttl * p.fallback.requestsPerSecond + burst) && second == n * ttl
    ensures Ran(p, actions, s, paid, second as real) && OnlyKey(p.fallback, s.fallback, second as real)
    ensures KEY in s.redis && s.redis[KEY].ranAt == second as real
  {
    if n == 0 {
      actions, s := Opening(p, rate, burst, ttl);
      paid, second := 2 * burst, 0;
    } else {
      var each := ttl * p.fallback.requestsPerSecond + burst;
      actions, s, paid, second := Rounds(p, rate, burst, ttl, n - 1);
      actions, s := Round(p, rate, burst, ttl, actions, s, paid, second);
      OneMore(n, each);
      OneMore(n, ttl);
      paid, second := paid + each, second + ttl;
    }
  }

  lemma Distributes(n: int, a: int, b: int)
    ensures n * (a + b) == n * a + n * b
  {
  }

  lemma Associates(a: int, b: int, c: int)
    ensures a * (b * c) == a * b * c
  {
  }

  lemma Scales(n: nat, a: int, b: int)
    requires a < b
    ensures n * a + n <= n * b
  {
    Distributes(n, a + 1, b - (a + 1));
    Distributes(n, a, 1);
    NotNegative(n, b - (a + 1));
  }

  lemma NotNegative(a: nat, b: nat)
    ensures a * b >= 0
  {
  }

  /** Each round gains at least one admission on the bound, and `rate + 1` rounds make up for
      its extra second. */
  lemma RoundsExceed(rate: nat, each: nat, burst: int, ttl: nat)
    requires ttl * rate < burst
    ensures var n := rate + 1;
      2 * burst + n * (ttl * each + burst) > (burst + (n * ttl + 1) * rate) + (burst + n * ttl * each)
  {
    var n := rate + 1;
    Distributes(n, ttl * each, burst);
    Associates(n, ttl, each);
    Distributes(rate, n * ttl, 1);
    Associates(n, ttl, rate);
    Scales(n, ttl * rate, burst);
    assert (n * ttl + 1) * rate == rate * (n * ttl + 1);
    assert n * ttl * rate == rate * (n * ttl);
  }

  lemma AllowanceOf(l: Limits, burst: int, rate: int, seconds: int)
    requires l == Limits(burst as real, rate as real)
    ensures Allowance(l, 0.0, seconds as real) == (burst + seconds * rate) as real
  {
    assert seconds as real * rate as real == (seconds * rate) as real;
  }

  lemma ShortOfBurstExceeds(p: Params, rate: nat, burst: nat, ttl: nat)
    requires Shape(p, rate, burst, ttl)
    ensures !AlwaysWithin(p)
  {
    var n := rate + 1;
    var each := p.fallback.requestsPerSecond;
    var actions, s, paid, second := Rounds(p, rate, burst, ttl, n);
    RoundsExceed(rate, each, burst, ttl);
    AllowanceOf(p.redis, burst, rate, second + 1);
    AllowanceOf(LimitsOf(p.fallback), burst, each, second);
    assert Performed(p, Initial(p, 0.0), []) == Initial(p, 0.0);
    assert !WithinBoth(p, Initial(p, 0.0), 0.0, actions, second as real, KEY);
  }

  /** The composite bound holds of every interleaving if and only if the configured time to
      live, in whole seconds, times the rate covers the burst. */
  lemma InterleavingIsBoundedExactlyWhen(s: Settings)
    requires s.burst >= 0 && s.requestsPerSecond >= 0
    ensures AlwaysWithin(ParamsOf(s)) <==> Normalized(s).2 * s.requestsPerSecond >= s.burst
  {
    var p := ParamsOf(s);
    if Normalized(s).2 * s.requestsPerSecond >= s.burst {
      ConfiguredRefillsWhenIdle(s);
      forall start: real, past: seq<Action>, from: real, window: seq<Action>, end: real, key: string
        | && ActInOrder(start, past) && LastActed(start, past) <= from && KeepsBucket(p, Initial(p, start), past, key)
          && ActInOrder(from, window) && LastActed(from, window) <= end
          && KeepsBucket(p, Performed(p, Initial(p, start), past), window, key)
        ensures WithinBoth(p, Performed(p, Initial(p, start), past), from, window, end, key)
      {
        InterleavingIsBounded(p, start, past, from, window, end, key);
      }
    } else {
      BurstIsPositive(Normalized(s).2, s.requestsPerSecond, s.burst);
      ShortOfBurstExceeds(p, s.requestsPerSecond, s.burst, Normalized(s).2);
    }
  }

  lemma BurstIsPositive(ttl: int, rate: int, burst: int)
    requires ttl >= 1 && rate >= 0 && ttl * rate < burst
    ensures burst >= 1
  {
  }
}
