/** `RedisRateLimiter.AllowKey` as a whole: the breaker, the Redis bucket it shares with other
    processes, and the process's own fallback table.

    One real clock drives everything; Redis gets it in whole seconds. A key expires in Redis
    `keyTTLSeconds` after its last script run. Whether a script run answers, fails before it
    runs or fails after it ran is decided by the environment, call by call. */
module RedisFallback {
  import opened Wrappers
  import opened TokenBucket
  import opened PartitionedLimiter
  import opened TableLaws
  import opened Eviction
  import opened FloodBound
  import opened RedisLimiter

  const SECOND := 1_000_000_000

  /** The settings as configured; durations in nanoseconds. */
  datatype Settings = Settings(requestsPerSecond: int, burst: int, keyTTL: int, threshold: int, resetTimeout: int)

  /** `normalizeRedisRateLimiterSettings`: threshold, reset timeout and whole seconds to live. */
  function Normalized(s: Settings): (r: (int, int, int))
    ensures r.0 >= 1 && r.1 >= 1 && r.2 >= 1
    ensures (s.threshold > 0 ==> r.0 == s.threshold) && (s.threshold <= 0 ==> r.0 == 3)
    ensures (s.resetTimeout > 0 ==> r.1 == s.resetTimeout) && (s.resetTimeout <= 0 ==> r.1 == 30 * SECOND)
    ensures s.keyTTL > 0 ==> (r.2 - 1) * SECOND < s.keyTTL <= r.2 * SECOND
    ensures s.keyTTL <= 0 ==> r.2 == 3600
  {
    var threshold := if s.threshold <= 0 then 3 else s.threshold;
    var reset := if s.resetTimeout <= 0 then 30 * SECOND else s.resetTimeout;
    var ttl := if s.keyTTL <= 0 then 3600 * SECOND else s.keyTTL;
    (threshold, reset, (ttl + SECOND - 1) / SECOND)
  }

  /** The limiter's own constants: raw limits for Redis, normalised ones for the fallback. */
  datatype Params = Params(redis: Limits, ttl: real, threshold: int, reset: real, fallback: Config)

  function ParamsOf(s: Settings): Params {
    var (threshold, reset, ttl) := Normalized(s);
    Params(Limits(s.burst as real, s.requestsPerSecond as real), ttl as real, threshold, reset as real / SECOND as real,
           Normalize(Config(s.requestsPerSecond, s.burst, ttl as real, 0, 0.0)))
  }

  datatype Stored = Stored(bucket: Bucket, ranAt: real)

  datatype System = System(breaker: Breaker, redis: map<string, Stored>, fallback: Table)

  /** What Redis does with a request that is sent to it. */
  datatype Reply = Answered | LostBeforeRun | LostAfterRun

  /** A call of this process, or a script run some other process causes. */
  datatype Request =
    | Ours(key: string, now: real, reply: Reply)
    | Theirs(key: string, now: real)

  function Live(p: Params, redis: map<string, Stored>, key: string, now: real): Option<Bucket> {
    if key in redis && now < redis[key].ranAt + p.ttl then Some(redis[key].bucket) else None
  }

  function Executed(p: Params, redis: map<string, Stored>, key: string, now: real): map<string, Stored> {
    redis[key := Stored(RunScript(p.redis, Live(p, redis, key, now), Unix(now)).0, now)]
  }

  function ScriptAllows(p: Params, redis: map<string, Stored>, key: string, now: real): bool {
    RunScript(p.redis, Live(p, redis, key, now), Unix(now)).1
  }

  function OneReading(key: string, now: real): Call {
    Call(key, now, now, now)
  }

  function FallBack(p: Params, s: System, key: string, now: real): System {
    s.(fallback := CallStep(p.fallback, s.fallback, OneReading(key, now)))
  }

  predicate UsesFallback(p: Params, s: System, r: Request) {
    r.Ours? && (IsOpen(p.reset, s.breaker, r.now) || r.reply != Answered)
  }

  /** The state a request leaves. */
  function Handle(p: Params, s: System, r: Request): System {
    var key := KeyOf(r.key);
    match r
    case Theirs(_, now) => s.(redis := Executed(p, s.redis, key, now))
    case Ours(_, now, reply) =>
      if IsOpen(p.reset, s.breaker, now) then FallBack(p, s, key, now)
      else
        var redis := if reply == LostBeforeRun then s.redis else Executed(p, s.redis, key, now);
        if reply == Answered then s.(redis := redis, breaker := Record(p.threshold, s.breaker, Succeeded))
        else FallBack(p, s.(redis := redis, breaker := Record(p.threshold, s.breaker, Failed(now))), key, now)
  }

  /** What this process answers. */
  predicate Grants(p: Params, s: System, r: Request) {
    r.Ours? &&
    if UsesFallback(p, s, r) then Allowed(p.fallback, s.fallback, OneReading(KeyOf(r.key), r.now))
    else ScriptAllows(p, s.redis, KeyOf(r.key), r.now)
  }

  function Initial(p: Params, now: real): System {
    System(CLOSED, map[], CreatedTable(p.fallback, now))
  }

  function Served(p: Params, s: System, rs: seq<Request>): System {
    if rs == [] then s else Handle(p, Served(p, s, rs[..|rs| - 1]), rs[|rs| - 1])
  }

  /** This process's admissions for one key. */
  function AdmissionsOf(p: Params, s: System, rs: seq<Request>, key: string): nat {
    if rs == [] then 0
    else
      var past := rs[..|rs| - 1];
      var r := rs[|rs| - 1];
      AdmissionsOf(p, s, past, key)
      + if KeyOf(r.key) == key && Grants(p, Served(p, s, past), r) then 1 else 0
  }

  function LastNow(start: real, rs: seq<Request>): real {
    if rs == [] then start else rs[|rs| - 1].now
  }

  predicate InOrder(start: real, rs: seq<Request>) {
    rs == [] || (InOrder(start, rs[..|rs| - 1]) && LastNow(start, rs[..|rs| - 1]) <= rs[|rs| - 1].now)
  }

  /** The fallback always has a bucket of its own for the key. */
  predicate KeepsOwnBucket(p: Params, s: System, rs: seq<Request>, key: string) {
    rs == [] ||
    (var past := rs[..|rs| - 1];
     var r := rs[|rs| - 1];
     && KeepsOwnBucket(p, s, past, key)
     && (KeyOf(r.key) == key && UsesFallback(p, Served(p, s, past), r) ==>
           Route(p.fallback, Served(p, s, past).fallback, key, r.now) != Overflow))
  }

  /** An idle time to live refills a whole burst, in Redis and in the fallback. */
  predicate RefillsWhenIdle(p: Params) {
    && p.redis.burst >= 0.0 && p.redis.rate >= 0.0 && p.ttl >= 1.0 && p.ttl.Floor as real == p.ttl
    && p.ttl * p.redis.rate >= p.redis.burst
    && Normal(p.fallback)
    && p.fallback.entryTTL * LimitsOf(p.fallback).rate >= LimitsOf(p.fallback).burst
  }

  // ----- the account of one key

  /** Redis: a live bucket of the key, or none, which counts as full. */
  function RedisRoom(p: Params, redis: map<string, Stored>, key: string, t: real, end: real): real {
    (match Live(p, redis, key, t)
     case None => p.redis.burst
     case Some(b) => Level(p.redis, b, Unix(t)))
    + Refill(p.redis, Unix(t), Unix(end))
  }

  /** Every stored bucket is in range and was refilled to the second it ran in. */
  predicate RedisSound(p: Params, redis: map<string, Stored>, now: real) {
    forall k | k in redis ::
      Sound(p.redis, redis[k].bucket, Unix(now)) && redis[k].bucket.last == Unix(redis[k].ranAt)
  }

  lemma ExpiredIsFull(p: Params, e: Stored, t: real)
    requires RefillsWhenIdle(p) && e.bucket.last == Unix(e.ranAt) && e.bucket.tokens >= 0.0
    requires e.ranAt + p.ttl <= t
    ensures Level(p.redis, e.bucket, Unix(t)) == p.redis.burst
  {
    WholeSecondsLater(e.ranAt, p.ttl, t);
    RefillOfLongerSpan(p.redis, 0.0, p.ttl, e.bucket.last, Unix(t));
    assert Refill(p.redis, 0.0, p.ttl) == p.ttl * p.redis.rate;
  }

  lemma WholeSecondsLater(s: real, seconds: real, t: real)
    requires seconds.Floor as real == seconds && s + seconds <= t
    ensures Unix(s) + seconds <= Unix(t)
  {
    FloorBounds(s);
    FloorBounds(t);
    assert (s.Floor + seconds.Floor) as real <= t;
    FloorIsMonotone((s.Floor + seconds.Floor) as real, t);
  }

  lemma RedisRoomShrinks(p: Params, redis: map<string, Stored>, key: string, t: real, now: real, end: real)
    requires RefillsWhenIdle(p) && RedisSound(p, redis, t) && t <= now <= end
    ensures RedisSound(p, redis, now)
    ensures 0.0 <= RedisRoom(p, redis, key, now, end) <= RedisRoom(p, redis, key, t, end)
    ensures RedisRoom(p, redis, key, t, end) <= Allowance(p.redis, Unix(t), Unix(end))
  {
    UnixRoundsDown(t, now);
    UnixRoundsDown(now, end);
    var full := Created(p.redis, Unix(t));
    if Live(p, redis, key, t).Some? {
      RoomShrinks(p.redis, redis[key].bucket, Unix(t), Unix(now), Unix(end));
      if Live(p, redis, key, now).None? {
        ExpiredIsFull(p, redis[key], now);
      }
    } else {
      NoRefillAtOnce(p.redis, Unix(t));
      RoomShrinks(p.redis, full, Unix(t), Unix(now), Unix(end));
      RefillIsMonotone(p.redis, Unix(t), Unix(t), Unix(now));
    }
  }

  /** One script run of the key lowers its room by what it admits; a run of another key
      leaves it alone. */
  lemma ScriptRunRoom(p: Params, redis: map<string, Stored>, ran: string, key: string, now: real, end: real)
    requires RefillsWhenIdle(p) && RedisSound(p, redis, now) && now <= end
    ensures RedisSound(p, Executed(p, redis, ran, now), now)
    ensures RedisRoom(p, Executed(p, redis, ran, now), key, now, end)
          + (if ran == key && ScriptAllows(p, redis, ran, now) then 1.0 else 0.0)
         == RedisRoom(p, redis, key, now, end)
  {
    var l := p.redis;
    var b := if Live(p, redis, ran, now).Some? then Live(p, redis, ran, now).value else Created(l, Unix(now));
    ScriptIsBucketStep(l, Live(p, redis, ran, now), Unix(now));
    LevelAfterStep(l, b, Unix(now));
    NoRefillAtOnce(l, Unix(now));
    StepIsSound(l, b, Unix(now));
  }

  /** The fallback: the key's own bucket, or none, which counts as full. */
  function FallbackRoom(c: Config, t: Table, key: string, now: real, end: real): real {
    (if key in t.partitions then Level(LimitsOf(c), t.partitions[key].bucket, now) else LimitsOf(c).burst)
    + Refill(LimitsOf(c), now, end)
  }

  predicate KeySound(c: Config, t: Table, key: string, now: real) {
    key in t.partitions ==>
      Sound(LimitsOf(c), t.partitions[key].bucket, now) && t.partitions[key].bucket.last <= t.partitions[key].lastSeen
  }

  lemma FallbackRoomShrinks(p: Params, t: Table, key: string, was: real, now: real, end: real)
    requires RefillsWhenIdle(p) && KeySound(p.fallback, t, key, was) && was <= now <= end
    ensures 0.0 <= FallbackRoom(p.fallback, t, key, now, end) <= FallbackRoom(p.fallback, t, key, was, end)
    ensures FallbackRoom(p.fallback, t, key, was, end) <= Allowance(LimitsOf(p.fallback), was, end)
  {
    var l := LimitsOf(p.fallback);
    if key in t.partitions {
      RoomShrinks(l, t.partitions[key].bucket, was, now, end);
    } else {
      RefillSplits(l, was, now, end);
      RefillIsMonotone(l, was, was, now);
      RefillIsMonotone(l, now, now, end);
    }
  }

  lemma FallbackCleanupRoom(p: Params, t: Table, key: string, now: real, end: real)
    requires RefillsWhenIdle(p) && KeySound(p.fallback, t, key, now)
    ensures KeySound(p.fallback, Cleaned(p.fallback, t, now), key, now)
    ensures FallbackRoom(p.fallback, Cleaned(p.fallback, t, now), key, now, end)
         == FallbackRoom(p.fallback, t, key, now, end)
  {
    if key in t.partitions && Stale(p.fallback, t.partitions[key], now) {
      var e := t.partitions[key];
      RefillIsMonotone(LimitsOf(p.fallback), e.bucket.last, e.bucket.last, e.lastSeen);
      RefillSplits(LimitsOf(p.fallback), e.bucket.last, e.lastSeen, e.bucket.last);
      NoRefillAtOnce(LimitsOf(p.fallback), e.bucket.last);
      NeededWithoutLag(p.fallback);
      IdleBucketIsFull(p.fallback, e, now, 0.0);
    }
  }

  lemma FallbackCallRoom(p: Params, t: Table, called: string, key: string, now: real, end: real)
    requires RefillsWhenIdle(p) && KeySound(p.fallback, t, key, now) && now <= end
    requires called != "" && (called == key ==> Route(p.fallback, t, key, now) != Overflow)
    ensures var u := CallStep(p.fallback, t, OneReading(called, now));
      && KeySound(p.fallback, u, key, now)
      && FallbackRoom(p.fallback, u, key, now, end)
       + (if called == key && Allowed(p.fallback, t, OneReading(called, now)) then 1.0 else 0.0)
      == FallbackRoom(p.fallback, t, key, now, end)
  {
    var l := LimitsOf(p.fallback);
    var u := Cleaned(p.fallback, t, now);
    FallbackCleanupRoom(p, t, key, now, end);
    if called == key {
      var b := if key in u.partitions then u.partitions[key].bucket else Created(l, now);
      LevelAfterStep(l, b, now);
      NoRefillAtOnce(l, now);
      StepIsSound(l, b, now);
    }
  }

  // ----- runs

  predicate KeyInvariant(p: Params, s: System, key: string, now: real) {
    RedisSound(p, s.redis, now) && KeySound(p.fallback, s.fallback, key, now)
  }

  /** What the key can still get out of this process until `end`. */
  function RoomOf(p: Params, s: System, key: string, now: real, end: real): real {
    RedisRoom(p, s.redis, key, now, end) + FallbackRoom(p.fallback, s.fallback, key, now, end)
  }

  lemma KeyNeverEmpty(key: string)
    ensures KeyOf(key) != "" && KeyOf(KeyOf(key)) == KeyOf(key)
  {
  }

  lemma RequestRoom(p: Params, s: System, r: Request, key: string, was: real, end: real)
    requires RefillsWhenIdle(p) && KeyInvariant(p, s, key, was) && was <= r.now <= end
    requires KeyOf(r.key) == key && UsesFallback(p, s, r) ==> Route(p.fallback, s.fallback, key, r.now) != Overflow
    ensures KeyInvariant(p, Handle(p, s, r), key, r.now)
    ensures RoomOf(p, Handle(p, s, r), key, r.now, end)
          + (if KeyOf(r.key) == key && Grants(p, s, r) then 1.0 else 0.0)
         <= RoomOf(p, s, key, was, end)
  {
    var called := KeyOf(r.key);
    KeyNeverEmpty(r.key);
    RedisRoomShrinks(p, s.redis, key, was, r.now, end);
    FallbackRoomShrinks(p, s.fallback, key, was, r.now, end);
    ScriptRunRoom(p, s.redis, called, key, r.now, end);
    if UsesFallback(p, s, r) {
      FallbackCallRoom(p, s.fallback, called, key, r.now, end);
    }
  }

  lemma {:induction false} RunRoom(p: Params, s: System, rs: seq<Request>, key: string, from: real, end: real)
    requires RefillsWhenIdle(p) && KeyInvariant(p, s, key, from)
    requires InOrder(from, rs) && LastNow(from, rs) <= end && KeepsOwnBucket(p, s, rs, key)
    ensures KeyInvariant(p, Served(p, s, rs), key, LastNow(from, rs)) && from <= LastNow(from, rs)
    ensures AdmissionsOf(p, s, rs, key) as real + RoomOf(p, Served(p, s, rs), key, LastNow(from, rs), end)
         <= RoomOf(p, s, key, from, end)
  {
    if rs != [] {
      var past := rs[..|rs| - 1];
      RunRoom(p, s, past, key, from, end);
      RequestRoom(p, Served(p, s, past), rs[|rs| - 1], key, LastNow(from, past), end);
    }
  }

  /** The composite bound: from any moment of any run, whatever the breaker does, whatever
      Redis loses before or after running the script, and whatever other processes and
      other keys do, one process admits for a key whose fallback bucket is its own at most
      the Redis bound (one second longer, since the clock is sent in whole seconds) plus
      the fallback's. */
  lemma CompositeIsBounded(p: Params, start: real, past: seq<Request>, from: real, window: seq<Request>, end: real,
                           key: string)
    requires RefillsWhenIdle(p)
    requires InOrder(start, past) && LastNow(start, past) <= from && KeepsOwnBucket(p, Initial(p, start), past, key)
    requires InOrder(from, window) && LastNow(from, window) <= end
    requires KeepsOwnBucket(p, Served(p, Initial(p, start), past), window, key)
    ensures AdmissionsOf(p, Served(p, Initial(p, start), past), window, key) as real
         <= Allowance(p.redis, from, end + 1.0) + Allowance(LimitsOf(p.fallback), from, end)
  {
    var s := Served(p, Initial(p, start), past);
    var prior := LastNow(start, past);
    RunRoom(p, Initial(p, start), past, key, start, prior);
    RedisRoomShrinks(p, s.redis, key, prior, from, from);
    FallbackRoomShrinks(p, s.fallback, key, prior, from, from);
    RunRoom(p, s, window, key, from, end);
    RoomIsBounded(p, Served(p, s, window), key, LastNow(from, window), end);
    RoomIsBounded(p, s, key, from, end);
  }

  // ----- which way a request goes

  /** In any run the breaker is flagged open exactly from `threshold` failures on. */
  lemma {:induction false} ServedIsConsistent(p: Params, start: real, rs: seq<Request>)
    requires p.threshold >= 1
    ensures Consistent(p.threshold, Served(p, Initial(p, start), rs).breaker)
  {
    if rs != [] {
      ServedIsConsistent(p, start, rs[..|rs| - 1]);
    }
  }

  /** Redis is due to be asked: the breaker has seen too few failures in a row, or its reset
      timeout is over. */
  predicate Due(p: Params, b: Breaker, now: real) {
    b.failures < p.threshold || now - b.lastFailure > p.reset
  }

  /** A request that Redis would answer gets its answer exactly when Redis is due to be asked,
      and then closes the circuit; otherwise it is the fallback's, and neither Redis nor the
      breaker changes. */
  lemma AnsweredExactlyWhenDue(p: Params, s: System, key: string, now: real)
    requires Consistent(p.threshold, s.breaker)
    ensures var r := Ours(key, now, Answered);
      var k := Counted(key);
      if Due(p, s.breaker, now) then
        && Grants(p, s, r) == ScriptAllows(p, s.redis, k, now)
        && Handle(p, s, r)
           == System(Breaker(0, s.breaker.lastFailure, false), Executed(p, s.redis, k, now), s.fallback)
      else
        && Grants(p, s, r) == Allowed(p.fallback, s.fallback, Call(k, now, now, now))
        && Handle(p, s, r)
           == System(s.breaker, s.redis, CallStep(p.fallback, s.fallback, Call(k, now, now, now)))
  {
  }

  /** A request that Redis loses is the fallback's in any case. If Redis was due to be asked
      the failure is counted and stamped; if it was lost after the script ran, Redis has
      counted it, too. */
  lemma LostIsFallback(p: Params, s: System, key: string, now: real, reply: Reply)
    requires Consistent(p.threshold, s.breaker) && reply != Answered
    ensures var r := Ours(key, now, reply);
      var k := Counted(key);
      var due := Due(p, s.breaker, now);
      var failures := s.breaker.failures + 1;
      && Grants(p, s, r) == Allowed(p.fallback, s.fallback, Call(k, now, now, now))
      && Handle(p, s, r).fallback == CallStep(p.fallback, s.fallback, Call(k, now, now, now))
      && Handle(p, s, r).breaker == (if due then Breaker(failures, now, failures >= p.threshold) else s.breaker)
      && Handle(p, s, r).redis
         == if due && reply == LostAfterRun then Executed(p, s.redis, k, now) else s.redis
  {
  }

  /** The constants of a limiter configured in whole seconds. */
  lemma ConfiguredConstants(s: Settings, reset: int, ttl: int)
    requires s.threshold > 0 && reset > 0 && ttl > 0
    requires s.resetTimeout == reset * SECOND && s.keyTTL == ttl * SECOND
    ensures var p := ParamsOf(s);
      && p.threshold == s.threshold && p.reset == reset as real && p.ttl == ttl as real
      && p.redis == Limits(s.burst as real, s.requestsPerSecond as real)
      && p.fallback.entryTTL == ttl as real && p.fallback.maxPartitions == 4096
      && (s.burst > 0 ==> p.fallback.burst == s.burst)
      && (s.requestsPerSecond > 0 ==> p.fallback.requestsPerSecond == s.requestsPerSecond)
  {
    assert (ttl * SECOND + SECOND - 1) / SECOND == ttl;
  }

  // ----- concurrent requests

  /** What a request does to shared state, one atomic step at a time. `ours` says whether the
      script's answer reaches this process. */
  datatype Action =
    | Script(key: string, now: real, ours: bool)
    | Fallback(key: string, now: real)
    | Note(now: real, outcome: Outcome)

  function Perform(p: Params, s: System, a: Action): System {
    match a
    case Script(key, now, _) => s.(redis := Executed(p, s.redis, KeyOf(key), now))
    case Fallback(key, now) => FallBack(p, s, KeyOf(key), now)
    case Note(_, outcome) => s.(breaker := Record(p.threshold, s.breaker, outcome))
  }

  /** The action admits a request of this process for the key. */
  predicate Pays(p: Params, s: System, a: Action, key: string) {
    match a
    case Script(k, now, ours) => KeyOf(k) == key && ours && ScriptAllows(p, s.redis, key, now)
    case Fallback(k, now) => KeyOf(k) == key && Allowed(p.fallback, s.fallback, OneReading(key, now))
    case Note(_, _) => false
  }

  function Performed(p: Params, s: System, actions: seq<Action>): System {
    if actions == [] then s else Perform(p, Performed(p, s, actions[..|actions| - 1]), actions[|actions| - 1])
  }

  function PaidFor(p: Params, s: System, actions: seq<Action>, key: string): nat {
    if actions == [] then 0
    else
      var past := actions[..|actions| - 1];
      PaidFor(p, s, past, key) + if Pays(p, Performed(p, s, past), actions[|actions| - 1], key) then 1 else 0
  }

  function LastActed(start: real, actions: seq<Action>): real {
    if actions == [] then start else actions[|actions| - 1].now
  }

  /** The readings the actions use do not go back, in the order the actions happen. */
  predicate ActInOrder(start: real, actions: seq<Action>) {
    actions == [] ||
    (var past := actions[..|actions| - 1];
     ActInOrder(start, past) && LastActed(start, past) <= actions[|actions| - 1].now)
  }

  predicate OwnBucketAt(p: Params, s: System, a: Action, key: string) {
    a.Fallback? && KeyOf(a.key) == key ==> Route(p.fallback, s.fallback, key, a.now) != Overflow
  }

  predicate KeepsBucket(p: Params, s: System, actions: seq<Action>, key: string) {
    actions == [] ||
    (var past := actions[..|actions| - 1];
     KeepsBucket(p, s, past, key) && OwnBucketAt(p, Performed(p, s, past), actions[|actions| - 1], key))
  }

  /** The actions of one request that nothing interrupts. */
  function ActionsOf(p: Params, s: System, r: Request): seq<Action> {
    match r
    case Theirs(key, now) => [Script(key, now, false)]
    case Ours(key, now, reply) =>
      if IsOpen(p.reset, s.breaker, now) then [Fallback(key, now)]
      else if reply == Answered then [Script(key, now, true), Note(now, Succeeded)]
      else if reply == LostBeforeRun then [Note(now, Failed(now)), Fallback(key, now)]
      else [Script(key, now, false), Note(now, Failed(now)), Fallback(key, now)]
  }

  lemma PerformedSnoc(p: Params, s: System, actions: seq<Action>, a: Action, key: string)
    ensures Performed(p, s, actions + [a]) == Perform(p, Performed(p, s, actions), a)
    ensures PaidFor(p, s, actions + [a], key)
         == PaidFor(p, s, actions, key) + if Pays(p, Performed(p, s, actions), a, key) then 1 else 0
  {
    assert (actions + [a])[..|actions|] == actions;
  }

  lemma OneAction(p: Params, s: System, a: Action, key: string)
    ensures Performed(p, s, [a]) == Perform(p, s, a)
    ensures PaidFor(p, s, [a], key) == if Pays(p, s, a, key) then 1 else 0
  {
    PerformedSnoc(p, s, [], a, key);
    assert [] + [a] == [a];
  }

  lemma TwoActions(p: Params, s: System, a: Action, b: Action, key: string)
    ensures Performed(p, s, [a, b]) == Perform(p, Perform(p, s, a), b)
    ensures PaidFor(p, s, [a, b], key)
         == PaidFor(p, s, [a], key) + if Pays(p, Perform(p, s, a), b, key) then 1 else 0
  {
    OneAction(p, s, a, key);
    PerformedSnoc(p, s, [a], b, key);
    assert [a] + [b] == [a, b];
  }

  lemma ThreeActions(p: Params, s: System, a: Action, b: Action, c: Action, key: string)
    ensures Performed(p, s, [a, b, c]) == Perform(p, Perform(p, Perform(p, s, a), b), c)
    ensures PaidFor(p, s, [a, b, c], key)
         == PaidFor(p, s, [a, b], key) + if Pays(p, Perform(p, Perform(p, s, a), b), c, key) then 1 else 0
  {
    TwoActions(p, s, a, b, key);
    PerformedSnoc(p, s, [a, b], c, key);
    assert [a, b] + [c] == [a, b, c];
  }

  /** `AllowKey` is the sequence of its actions: they leave its state and admit what it
      grants. */
  lemma RequestIsItsActions(p: Params, s: System, r: Request)
    ensures Performed(p, s, ActionsOf(p, s, r)) == Handle(p, s, r)
    ensures PaidFor(p, s, ActionsOf(p, s, r), KeyOf(r.key)) == if Grants(p, s, r) then 1 else 0
  {
    var key := KeyOf(r.key);
    var actions := ActionsOf(p, s, r);
    OneAction(p, s, actions[0], key);
    if |actions| == 2 {
      TwoActions(p, s, actions[0], actions[1], key);
    } else if |actions| == 3 {
      TwoActions(p, s, actions[0], actions[1], key);
      ThreeActions(p, s, actions[0], actions[1], actions[2], key);
    }
  }

  lemma ActionRoom(p: Params, s: System, a: Action, key: string, was: real, end: real)
    requires RefillsWhenIdle(p) && KeyInvariant(p, s, key, was) && was <= a.now <= end
    requires OwnBucketAt(p, s, a, key)
    ensures KeyInvariant(p, Perform(p, s, a), key, a.now)
    ensures RoomOf(p, Perform(p, s, a), key, a.now, end) + (if Pays(p, s, a, key) then 1.0 else 0.0)
         <= RoomOf(p, s, key, was, end)
  {
    RedisRoomShrinks(p, s.redis, key, was, a.now, end);
    FallbackRoomShrinks(p, s.fallback, key, was, a.now, end);
    match a
    case Script(k, now, _) => ScriptRunRoom(p, s.redis, KeyOf(k), key, now, end);
    case Fallback(k, now) => FallbackCallRoom(p, s.fallback, KeyOf(k), key, now, end);
    case Note(_, _) =>
  }

  lemma {:induction false} ActionsRoom(p: Params, s: System, actions: seq<Action>, key: string, from: real, end: real)
    requires RefillsWhenIdle(p) && KeyInvariant(p, s, key, from)
    requires ActInOrder(from, actions) && LastActed(from, actions) <= end && KeepsBucket(p, s, actions, key)
    ensures var now := LastActed(from, actions);
      && from <= now && KeyInvariant(p, Performed(p, s, actions), key, now)
      && PaidFor(p, s, actions, key) as real + RoomOf(p, Performed(p, s, actions), key, now, end)
         <= RoomOf(p, s, key, from, end)
  {
    if actions != [] {
      var past := actions[..|actions| - 1];
      ActionsRoom(p, s, past, key, from, end);
      ActionRoom(p, Performed(p, s, past), actions[|actions| - 1], key, LastActed(from, past), end);
    }
  }

  /** What a key can still get is within the Redis bound and the fallback's. */
  lemma RoomIsBounded(p: Params, s: System, key: string, from: real, end: real)
    requires RefillsWhenIdle(p) && KeyInvariant(p, s, key, from) && from <= end
    ensures 0.0 <= RoomOf(p, s, key, from, end)
         <= Allowance(p.redis, from, end + 1.0) + Allowance(LimitsOf(p.fallback), from, end)
  {
    RedisRoomShrinks(p, s.redis, key, from, from, end);
    FallbackRoomShrinks(p, s.fallback, key, from, from, end);
    UnixRoundsDown(from, end);
    RefillOfLongerSpan(p.redis, Unix(from), Unix(end), from, end + 1.0);
  }

  /** The composite bound under concurrency: it holds of any interleaving of the actions of
      any number of requests, of this process and of others, whatever the breaker told each
      of them. */
  lemma InterleavingIsBounded(p: Params, start: real, past: seq<Action>, from: real, window: seq<Action>, end: real,
                              key: string)
    requires RefillsWhenIdle(p)
    requires ActInOrder(start, past) && LastActed(start, past) <= from && KeepsBucket(p, Initial(p, start), past, key)
    requires ActInOrder(from, window) && LastActed(from, window) <= end
    requires KeepsBucket(p, Performed(p, Initial(p, start), past), window, key)
    ensures PaidFor(p, Performed(p, Initial(p, start), past), window, key) as real
         <= Allowance(p.redis, from, end + 1.0) + Allowance(LimitsOf(p.fallback), from, end)
  {
    var s := Performed(p, Initial(p, start), past);
    var prior := LastActed(start, past);
    ActionsRoom(p, Initial(p, start), past, key, start, prior);
    RedisRoomShrinks(p, s.redis, key, prior, from, from);
    FallbackRoomShrinks(p, s.fallback, key, prior, from, from);
    ActionsRoom(p, s, window, key, from, end);
    RoomIsBounded(p, Performed(p, s, window), key, LastActed(from, window), end);
    RoomIsBounded(p, s, key, from, end);
  }

  /** The hypothesis in terms of the configuration: the key's time to live in whole
      seconds, times the rate, covers the burst. The fallback's half follows. */
  lemma ConfiguredRefillsWhenIdle(s: Settings)
    requires s.burst >= 0 && s.requestsPerSecond >= 0
    requires Normalized(s).2 * s.requestsPerSecond >= s.burst
    ensures RefillsWhenIdle(ParamsOf(s))
  {
    var ttl := Normalized(s).2;
    var p := ParamsOf(s);
    FallbackOf(s);
    Covers(p.redis, p.ttl, ttl, s.requestsPerSecond, s.burst);
    Covers(LimitsOf(p.fallback), p.fallback.entryTTL, ttl, p.fallback.requestsPerSecond, p.fallback.burst);
    FloorBounds(p.ttl);
  }

  lemma FallbackOf(s: Settings)
    ensures var c := ParamsOf(s).fallback;
      && Normal(c) && c.entryTTL == Normalized(s).2 as real
      && c.requestsPerSecond == (if s.requestsPerSecond <= 0 then 1 else s.requestsPerSecond)
      && c.burst == if s.burst <= 0 then 1 else s.burst
  {
  }

  lemma Covers(l: Limits, ttl: real, seconds: int, rate: int, burst: int)
    requires ttl == seconds as real && l == Limits(burst as real, rate as real) && seconds >= 1
    requires seconds * rate >= burst || (rate >= 1 && burst == 1)
    ensures ttl * l.rate >= l.burst
  {
    assert seconds as real * rate as real == (seconds * rate) as real;
  }

  // ----- the limiter object

  /** The keys a Redis server holds; every process that uses it shares this object. */
  class RedisServer {
    var keys: map<string, Stored>

    method Run(p: Params, key: string, now: real) returns (allowed: bool)
      modifies this
      ensures keys == Executed(p, old(keys), key, now)
      ensures allowed == ScriptAllows(p, old(keys), key, now)
    {
      var result := RunScript(p.redis, Live(p, keys, key, now), Unix(now));
      keys := keys[key := Stored(result.0, now)];
      allowed := result.1;
    }
  }

  class RedisRateLimiter {
    const params: Params
    const fallback: PartitionedRateLimiter
    const server: RedisServer
    var failures: nat
    var lastFailure: real
    var circuitOpen: bool

    ghost predicate Valid()
      reads this, fallback, fallback.Repr
    {
      && fallback.Valid() && fallback.config == params.fallback
      && this !in fallback.Repr && server !in fallback.Repr
    }

    ghost function BreakerView(): Breaker
      reads this
    {
      Breaker(failures, lastFailure, circuitOpen)
    }

    ghost function View(): System
      reads this, server, fallback
    {
      System(BreakerView(), server.keys, fallback.table)
    }

    constructor (s: Settings, server: RedisServer, now: real)
      ensures Valid() && fresh(fallback.Repr)
      ensures this.server == server && params == ParamsOf(s)
      ensures View() == Initial(params, now).(redis := server.keys)
    {
      var p := ParamsOf(s);
      params := p;
      this.server := server;
      var (_, _, ttl) := Normalized(s);
      fallback := new PartitionedRateLimiter(Config(s.requestsPerSecond, s.burst, ttl as real, 0, 0.0), now, now);
      failures, lastFailure, circuitOpen := 0, 0.0, false;
    }

    method IsCircuitOpen(now: real) returns (open: bool)
      ensures open == IsOpen(params.reset, BreakerView(), now)
    {
      if !circuitOpen {
        return false;
      }
      if now - lastFailure > params.reset {
        return false;
      }
      return true;
    }

    method RecordFailure(now: real)
      modifies this
      ensures BreakerView() == Record(params.threshold, old(BreakerView()), Failed(now))
    {
      failures := failures + 1;
      lastFailure := now;
      if failures >= params.threshold {
        circuitOpen := true;
      }
    }

    method RecordSuccess()
      modifies this
      ensures BreakerView() == Record(params.threshold, old(BreakerView()), Succeeded)
    {
      failures := 0;
      circuitOpen := false;
    }

    method AllowKey(requested: string, now: real, reply: Reply) returns (allowed: bool)
      requires Valid()
      modifies this, server, fallback.Repr
      ensures Valid() && fresh(fallback.Repr - old(fallback.Repr))
      ensures allowed == Grants(params, old(View()), Ours(requested, now, reply))
      ensures View() == Handle(params, old(View()), Ours(requested, now, reply))
    {
      var key := requested;
      if key == "" {
        key := "global";
      }
      var open := IsCircuitOpen(now);
      if open {
        allowed := fallback.AllowKey(OneReading(key, now));
        return;
      }
      var result := false;
      if reply != LostBeforeRun {
        result := server.Run(params, key, now);
      }
      if reply != Answered {
        RecordFailure(now);
        allowed := fallback.AllowKey(OneReading(key, now));
        return;
      }
      RecordSuccess();
      return result;
    }
  }
}
