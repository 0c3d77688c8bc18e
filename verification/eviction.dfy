/** When evicting an idle bucket can be noticed.

    A key's decisions are compared with those of one bucket that is never evicted and sees
    that key's calls only. A call reads the clock for the table first and for the bucket
    later, so a bucket may have been drained up to a lag after it was last seen. How much
    an idle time to live must refill, given the lag, is settled exactly. */
module Eviction {
  import opened Wrappers
  import opened TokenBucket
  import opened PartitionedLimiter

  function Min(a: real, b: real): real {
    if a < b then a else b
  }

  function Max(a: real, b: real): real {
    if a < b then b else a
  }

  // ----- the bucket that is never evicted

  /** The bucket a call finds: a new one the first time. */
  function Found(c: Config, ideal: Option<Bucket>, born: real): Bucket {
    match ideal
    case None => Created(LimitsOf(c), born)
    case Some(b) => b
  }

  /** One bucket that is never evicted, fed with the calls of `key` alone. */
  function Ideal(c: Config, calls: seq<Call>, key: string): Option<Bucket> {
    if calls == [] then None
    else
      var call := calls[|calls| - 1];
      var before := Ideal(c, calls[..|calls| - 1], key);
      if KeyOf(call.key) != key then before
      else Some(Step(LimitsOf(c), Found(c, before, call.born), call.at))
  }

  predicate NeverOverflows(c: Config, t: Table, calls: seq<Call>, key: string) {
    forall i | 0 <= i < |calls| && KeyOf(calls[i].key) == key ::
      Route(c, TableAfter(c, t, calls[..i]), key, calls[i].seen) != Overflow
  }

  /** The delay between the table's reading and the bucket's is at most `lag`. */
  predicate Lagging(calls: seq<Call>, lag: real) {
    lag >= 0.0 && forall i | 0 <= i < |calls| :: calls[i].at - calls[i].seen <= lag
  }

  /** What an idle time to live must refill. A bucket last seen at `s` may have been drained
      at `s + lag`, but what it refills during the lag is not lost except for one token. */
  function Needed(l: Limits, lag: real): real {
    Max(l.burst + Min(1.0, Refill(l, 0.0, lag)), Refill(l, 0.0, lag) + 1.0)
  }

  predicate RefillsEnough(c: Config, lag: real) {
    Needed(LimitsOf(c), lag) <= Refill(LimitsOf(c), 0.0, c.entryTTL)
  }

  /** Without a lag it must refill a burst, and no more. */
  lemma NeededWithoutLag(c: Config)
    requires Normal(c)
    ensures RefillsEnough(c, 0.0) <==> c.entryTTL * LimitsOf(c).rate >= LimitsOf(c).burst
  {
    NoRefillAtOnce(LimitsOf(c), 0.0);
  }

  // ----- enough: eviction is invisible

  /** The entry's last call left what its lag had refilled, less one token. */
  predicate Undrained(l: Limits, e: Entry, lag: real) {
    && e.bucket.last <= e.lastSeen + lag
    && Min(l.burst, Refill(l, e.lastSeen, e.bucket.last)) - 1.0 <= e.bucket.tokens
  }

  /** A key in the table has the ideal bucket; a key that was evicted has an ideal
      bucket that is full again. */
  predicate Mirrors(c: Config, t: Table, ideal: Option<Bucket>, key: string, now: real, lag: real) {
    if key in t.partitions then
      var e := t.partitions[key];
      ideal == Some(e.bucket) && Sound(LimitsOf(c), e.bucket, now) && Undrained(LimitsOf(c), e, lag)
    else
      ideal.None? || (Sound(LimitsOf(c), ideal.value, now) && Level(LimitsOf(c), ideal.value, now) == LimitsOf(c).burst)
  }

  lemma IdleBucketIsFull(c: Config, e: Entry, now: real, lag: real)
    requires Normal(c) && lag >= 0.0 && Stale(c, e, now)
    requires Undrained(LimitsOf(c), e, lag) && 0.0 <= e.bucket.tokens
    requires RefillsEnough(c, lag)
    ensures Level(LimitsOf(c), e.bucket, now) == LimitsOf(c).burst
  {
    var l := LimitsOf(c);
    RefillSplits(l, e.lastSeen, e.bucket.last, now);
    RefillOfLongerSpan(l, 0.0, c.entryTTL, e.lastSeen, now);
    RefillOfLongerSpan(l, e.lastSeen, e.bucket.last, 0.0, lag);
    RefillIsMonotone(l, 0.0, 0.0, lag);
  }

  lemma CleanupMirrors(c: Config, t: Table, ideal: Option<Bucket>, key: string, was: real, now: real, lag: real)
    requires Normal(c) && lag >= 0.0 && was <= now && Mirrors(c, t, ideal, key, was, lag)
    requires RefillsEnough(c, lag)
    ensures Mirrors(c, Cleaned(c, t, now), ideal, key, now, lag)
  {
    if key in t.partitions {
      if Stale(c, t.partitions[key], now) {
        IdleBucketIsFull(c, t.partitions[key], now, lag);
      }
    } else if ideal.Some? {
      LevelAdvances(LimitsOf(c), ideal.value, was, now);
    }
  }

  lemma FullBucketIsNew(l: Limits, b: Bucket, t: real, born: real, at: real)
    requires l.rate >= 0.0 && t <= born <= at && Level(l, b, t) == l.burst
    ensures Level(l, b, at) == Level(l, Created(l, born), at) == l.burst
  {
    LevelAdvances(l, b, t, at);
    RefillIsMonotone(l, born, born, at);
  }

  /** A call leaves what its lag has refilled, less the token it takes. */
  lemma StepIsUndrained(l: Limits, b: Bucket, seen: real, at: real, lag: real)
    requires l.rate >= 0.0 && Sound(l, b, seen) && seen <= at <= seen + lag
    ensures Undrained(l, Entry(Step(l, b, at), seen), lag)
  {
    RefillSplits(l, b.last, seen, at);
    RefillIsMonotone(l, b.last, b.last, seen);
  }

  /** One call of the key itself: the table's bucket and the ideal one decide alike and
      are the same afterwards. */
  lemma OwnCallMirrors(c: Config, t: Table, ideal: Option<Bucket>, call: Call, was: real, lag: real)
    requires Normal(c) && lag >= 0.0 && was <= call.seen <= call.born <= call.at <= call.seen + lag
    requires Mirrors(c, t, ideal, KeyOf(call.key), was, lag)
    requires RefillsEnough(c, lag)
    requires Route(c, t, KeyOf(call.key), call.seen) != Overflow
    ensures var b := Found(c, ideal, call.born);
      && Allowed(c, t, call) == Admits(LimitsOf(c), b, call.at)
      && Mirrors(c, CallStep(c, t, call), Some(Step(LimitsOf(c), b, call.at)), KeyOf(call.key), call.at, lag)
  {
    var l := LimitsOf(c);
    var key := KeyOf(call.key);
    var b := Found(c, ideal, call.born);
    CleanupMirrors(c, t, ideal, key, was, call.seen, lag);
    if Route(c, t, key, call.seen) == Existing {
      assert EntryFor(LookedUp(c, t, call), key).bucket == b;
      StepIsUndrained(l, b, call.seen, call.at, lag);
    } else {
      assert EntryFor(LookedUp(c, t, call), key).bucket == Created(l, call.born);
      FullBucketIsNew(l, Created(l, call.seen), call.seen, call.born, call.at);
      StepIsUndrained(l, Created(l, call.seen), call.seen, call.at, lag);
      if ideal.Some? {
        FullBucketIsNew(l, b, call.seen, call.born, call.at);
      }
    }
    assert Step(l, EntryFor(LookedUp(c, t, call), key).bucket, call.at) == Step(l, b, call.at);
    StepIsSound(l, b, call.at);
  }

  lemma OtherCallMirrors(c: Config, t: Table, ideal: Option<Bucket>, call: Call, key: string, was: real, lag: real)
    requires Normal(c) && lag >= 0.0 && was <= call.seen <= call.at && key != KeyOf(call.key)
    requires Mirrors(c, t, ideal, key, was, lag)
    requires RefillsEnough(c, lag)
    ensures Mirrors(c, CallStep(c, t, call), ideal, key, call.at, lag)
  {
    CleanupMirrors(c, t, ideal, key, was, call.seen, lag);
    var u := Cleaned(c, t, call.seen);
    if key in u.partitions {
      assert CallStep(c, t, call).partitions[key] == u.partitions[key];
    } else {
      assert key !in CallStep(c, t, call).partitions;
      if ideal.Some? {
        LevelAdvances(LimitsOf(c), ideal.value, call.seen, call.at);
      }
    }
  }

  lemma {:induction false} RunMirrors(c: Config, start: real, calls: seq<Call>, key: string, lag: real)
    requires Normal(c) && Sequential(start, calls) && Lagging(calls, lag)
    requires RefillsEnough(c, lag)
    requires NeverOverflows(c, CreatedTable(c, start), calls, key)
    ensures Mirrors(c, TableAfter(c, CreatedTable(c, start), calls), Ideal(c, calls, key), key,
                    LastAt(start, calls), lag)
  {
    if calls != [] {
      var n := |calls| - 1;
      var past := calls[..n];
      PastNeverOverflows(c, CreatedTable(c, start), calls, key, n);
      RunMirrors(c, start, past, key, lag);
      var t := TableAfter(c, CreatedTable(c, start), past);
      if KeyOf(calls[n].key) == key {
        OwnCallMirrors(c, t, Ideal(c, past, key), calls[n], LastAt(start, past), lag);
      } else {
        OtherCallMirrors(c, t, Ideal(c, past, key), calls[n], key, LastAt(start, past), lag);
      }
    }
  }

  lemma PastNeverOverflows(c: Config, t: Table, calls: seq<Call>, key: string, n: nat)
    requires n <= |calls| && NeverOverflows(c, t, calls, key)
    ensures NeverOverflows(c, t, calls[..n], key)
  {
    forall i | 0 <= i < n && KeyOf(calls[i].key) == key
      ensures Route(c, TableAfter(c, t, calls[..n][..i]), key, calls[..n][i].seen) != Overflow
    {
      assert calls[..n][..i] == calls[..i];
    }
  }

  lemma PastIsSequential(start: real, calls: seq<Call>, n: nat)
    requires n <= |calls| && Sequential(start, calls)
    ensures Sequential(start, calls[..n])
  {
    if n < |calls| {
      PastIsSequential(start, calls[..|calls| - 1], n);
      assert calls[..|calls| - 1][..n] == calls[..n];
    } else {
      assert calls[..n] == calls;
    }
  }

  predicate DecidesIdeally(c: Config, start: real, calls: seq<Call>, key: string, i: nat)
    requires i < |calls|
  {
    Allowed(c, TableAfter(c, CreatedTable(c, start), calls[..i]), calls[i])
    == Admits(LimitsOf(c), Found(c, Ideal(c, calls[..i], key), calls[i].born), calls[i].at)
  }

  /** If an idle time to live refills enough, every decision for a key that never overflows
      is that of one bucket that is never evicted and sees only that key's calls, whatever
      the other keys do. */
  lemma EvictionIsInvisible(c: Config, start: real, calls: seq<Call>, key: string, lag: real, i: nat)
    requires Normal(c) && Sequential(start, calls) && Lagging(calls, lag)
    requires RefillsEnough(c, lag)
    requires NeverOverflows(c, CreatedTable(c, start), calls, key)
    requires i < |calls| && KeyOf(calls[i].key) == key
    ensures DecidesIdeally(c, start, calls, key, i)
  {
    PastNeverOverflows(c, CreatedTable(c, start), calls, key, i);
    PastIsSequential(start, calls, i);
    PastIsSequential(start, calls, i + 1);
    assert calls[..i + 1][..i] == calls[..i];
    RunMirrors(c, start, calls[..i], key, lag);
    OwnCallMirrors(c, TableAfter(c, CreatedTable(c, start), calls[..i]), Ideal(c, calls[..i], key), calls[i],
                   LastAt(start, calls[..i]), lag);
  }

  // ----- not enough: some run tells

  /** Every decision of every sequential run whose readings are at most `lag` apart is the
      ideal one. */
  ghost predicate Transparent(c: Config, lag: real) {
    forall start: real, calls: seq<Call>, key: string, i: nat
      | i < |calls| && KeyOf(calls[i].key) == key && Sequential(start, calls) && Lagging(calls, lag)
        && NeverOverflows(c, CreatedTable(c, start), calls, key) ::
      DecidesIdeally(c, start, calls, key, i)
  }

  const VISITOR := "k"

  /** A run of one key's calls from instant 0, by the states it reaches. */
  ghost predicate Reaches(c: Config, lag: real, calls: seq<Call>, t: Table, ideal: Option<Bucket>, now: real) {
    && (forall i | 0 <= i < |calls| :: calls[i].key == VISITOR)
    && Sequential(0.0, calls) && Lagging(calls, lag) && LastAt(0.0, calls) == now
    && TableAfter(c, CreatedTable(c, 0.0), calls) == t && Ideal(c, calls, VISITOR) == ideal
  }

  /** The run with one more call of the key. */
  lemma Visit(c: Config, lag: real, calls: seq<Call>, t: Table, ideal: Option<Bucket>, now: real, seen: real, at: real)
    requires Reaches(c, lag, calls, t, ideal, now) && now <= seen <= at <= seen + lag
    ensures var call := Call(VISITOR, seen, seen, at);
      Reaches(c, lag, calls + [call], CallStep(c, t, call),
              Some(Step(LimitsOf(c), Found(c, ideal, seen), at)), at)
  {
    var call := Call(VISITOR, seen, seen, at);
    assert (calls + [call])[..|calls|] == calls;
  }

  lemma {:induction false} OneKeyInTable(c: Config, calls: seq<Call>)
    requires forall i | 0 <= i < |calls| :: calls[i].key == VISITOR
    ensures TableAfter(c, CreatedTable(c, 0.0), calls).partitions.Keys <= {VISITOR}
  {
    if calls != [] {
      OneKeyInTable(c, calls[..|calls| - 1]);
    }
  }

  lemma OneKeyNeverOverflows(c: Config, calls: seq<Call>)
    requires Normal(c) && forall i | 0 <= i < |calls| :: calls[i].key == VISITOR
    ensures NeverOverflows(c, CreatedTable(c, 0.0), calls, VISITOR)
  {
    forall i | 0 <= i < |calls|
      ensures Route(c, TableAfter(c, CreatedTable(c, 0.0), calls[..i]), VISITOR, calls[i].seen) != Overflow
    {
      OneKeyInTable(c, calls[..i]);
      var u := Cleaned(c, TableAfter(c, CreatedTable(c, 0.0), calls[..i]), calls[i].seen);
      if VISITOR !in u.partitions {
        assert u.partitions.Keys == {};
        assert |u.partitions.Keys| == 0;
      }
    }
  }

  /** A run that can go on to a decision the ideal bucket would not make. */
  lemma RunTells(c: Config, lag: real, calls: seq<Call>, t: Table, ideal: Option<Bucket>, was: real, now: real)
    requires Normal(c) && lag >= 0.0 && Reaches(c, lag, calls, t, ideal, was) && was <= now
    requires Allowed(c, t, Call(VISITOR, now, now, now)) != Admits(LimitsOf(c), Found(c, ideal, now), now)
    ensures !Transparent(c, lag)
  {
    var more := calls + [Call(VISITOR, now, now, now)];
    Visit(c, lag, calls, t, ideal, was, now, now);
    OneKeyNeverOverflows(c, more);
    assert more[..|calls|] == calls;
    assert !DecidesIdeally(c, 0.0, more, VISITOR, |calls|);
  }

  /** The key's entry is due for eviction at `now`, with a bucket that is not full. */
  predicate Ripe(c: Config, t: Table, ideal: Option<Bucket>, now: real) {
    && VISITOR in t.partitions && t.partitions == map[VISITOR := t.partitions[VISITOR]]
    && ideal == Some(t.partitions[VISITOR].bucket)
    && Stale(c, t.partitions[VISITOR], now) && t.nextCleanup <= now
    && Level(LimitsOf(c), ideal.value, now) < LimitsOf(c).burst
  }

  /** `n` calls at `now` after an eviction: the table's bucket is ahead of the ideal one. */
  predicate Ahead(c: Config, t: Table, ideal: Option<Bucket>, n: nat, now: real) {
    && now < t.nextCleanup && VISITOR in t.partitions
    && t.partitions[VISITOR].bucket == Bucket((c.burst - n) as real, now)
    && ideal.Some? && ideal.value.last == now
    && (ideal.value.tokens < (c.burst - n) as real || ideal.value.tokens < 1.0)
  }

  lemma EvictionPutsAhead(c: Config, t: Table, ideal: Option<Bucket>, now: real)
    requires Normal(c) && Ripe(c, t, ideal, now)
    ensures var call := Call(VISITOR, now, now, now);
      && Allowed(c, t, call)
      && (Admits(LimitsOf(c), ideal.value, now) ==>
            Ahead(c, CallStep(c, t, call), Some(Step(LimitsOf(c), ideal.value, now)), 1, now))
  {
    assert Cleaned(c, t, now).partitions == map[];
    NoRefillAtOnce(LimitsOf(c), now);
  }

  lemma NextCallStaysAhead(c: Config, t: Table, ideal: Option<Bucket>, n: nat, now: real)
    requires Normal(c) && n < c.burst && Ahead(c, t, ideal, n, now)
    ensures var call := Call(VISITOR, now, now, now);
      && Allowed(c, t, call)
      && (n == c.burst - 1 ==> !Admits(LimitsOf(c), ideal.value, now))
      && Ahead(c, CallStep(c, t, call), Some(Step(LimitsOf(c), ideal.value, now)), n + 1, now)
  {
    assert Cleaned(c, t, now) == t;
    NoRefillAtOnce(LimitsOf(c), now);
  }

  /** From there, a burst of calls at one instant ends in a call that only the table admits. */
  lemma {:induction false} BurstTells(c: Config, lag: real, calls: seq<Call>, t: Table, ideal: Option<Bucket>,
                                      n: nat, now: real)
    requires Normal(c) && lag >= 0.0 && Reaches(c, lag, calls, t, ideal, now)
    requires n < c.burst && Ahead(c, t, ideal, n, now)
    ensures !Transparent(c, lag)
    decreases c.burst - n
  {
    NextCallStaysAhead(c, t, ideal, n, now);
    if n == c.burst - 1 {
      RunTells(c, lag, calls, t, ideal, now, now);
    } else {
      var call := Call(VISITOR, now, now, now);
      Visit(c, lag, calls, t, ideal, now, now, now);
      BurstTells(c, lag, calls + [call], CallStep(c, t, call), Some(Step(LimitsOf(c), ideal.value, now)), n + 1, now);
    }
  }

  /** So a run that leaves an entry ripe for eviction tells. */
  lemma RipeEntryTells(c: Config, lag: real, calls: seq<Call>, t: Table, ideal: Option<Bucket>, was: real, now: real)
    requires Normal(c) && lag >= 0.0 && Reaches(c, lag, calls, t, ideal, was) && was <= now
    requires Ripe(c, t, ideal, now)
    ensures !Transparent(c, lag)
  {
    var call := Call(VISITOR, now, now, now);
    EvictionPutsAhead(c, t, ideal, now);
    if Admits(LimitsOf(c), ideal.value, now) {
      Visit(c, lag, calls, t, ideal, was, now, now);
      BurstTells(c, lag, calls + [call], CallStep(c, t, call), Some(Step(LimitsOf(c), ideal.value, now)), 1, now);
    } else {
      RunTells(c, lag, calls, t, ideal, was, now);
    }
  }

  // ----- three ways to leave an entry ripe

  /** The state after `n` calls at instant 0. */
  function Spent(c: Config, n: nat): Table {
    Table(c.cleanupInterval, map[VISITOR := Entry(SpentBucket(c, n), 0.0)],
          Entry(Created(LimitsOf(c), 0.0), 0.0))
  }

  function SpentBucket(c: Config, n: nat): Bucket {
    Bucket((c.burst - n) as real, 0.0)
  }

  lemma FirstSpend(c: Config)
    requires Normal(c)
    ensures CallStep(c, CreatedTable(c, 0.0), Call(VISITOR, 0.0, 0.0, 0.0)) == Spent(c, 1)
    ensures Step(LimitsOf(c), Created(LimitsOf(c), 0.0), 0.0) == SpentBucket(c, 1)
  {
    NoRefillAtOnce(LimitsOf(c), 0.0);
  }

  lemma NextSpend(c: Config, n: nat)
    requires Normal(c) && 1 <= n < c.burst
    ensures Step(LimitsOf(c), SpentBucket(c, n), 0.0) == SpentBucket(c, n + 1)
    ensures CallStep(c, Spent(c, n), Call(VISITOR, 0.0, 0.0, 0.0)) == Spent(c, n + 1)
  {
    NoRefillAtOnce(LimitsOf(c), 0.0);
    assert Step(LimitsOf(c), SpentBucket(c, n), 0.0) == SpentBucket(c, n + 1);
    assert LookedUp(c, Spent(c, n), Call(VISITOR, 0.0, 0.0, 0.0)).partitions == Spent(c, n).partitions;
  }

  lemma {:induction false} Spend(c: Config, lag: real, n: nat) returns (calls: seq<Call>)
    requires Normal(c) && lag >= 0.0 && 1 <= n <= c.burst
    ensures Reaches(c, lag, calls, Spent(c, n), Some(SpentBucket(c, n)), 0.0)
  {
    var call := Call(VISITOR, 0.0, 0.0, 0.0);
    if n == 1 {
      FirstSpend(c);
      Visit(c, lag, [], CreatedTable(c, 0.0), None, 0.0, 0.0, 0.0);
      calls := [] + [call];
    } else {
      var m := n - 1;
      var before := Spend(c, lag, m);
      NextSpend(c, m);
      Visit(c, lag, before, Spent(c, m), Some(SpentBucket(c, m)), 0.0, 0.0, 0.0);
      calls := before + [call];
      assert CallStep(c, Spent(c, m), call) == Spent(c, n);
    }
  }

  /** A time to live that does not refill a burst: spend it at once. */
  lemma ShortOfBurstTells(c: Config, lag: real)
    requires Normal(c) && lag >= 0.0 && Refill(LimitsOf(c), 0.0, c.entryTTL) < LimitsOf(c).burst
    ensures !Transparent(c, lag)
  {
    var calls := Spend(c, lag, c.burst);
    RipeEntryTells(c, lag, calls, Spent(c, c.burst), Some(Bucket(0.0, 0.0)), 0.0, c.entryTTL);
  }

  lemma FirstLate(c: Config, late: real)
    requires Normal(c) && 0.0 <= late
    ensures Step(LimitsOf(c), Created(LimitsOf(c), 0.0), late) == Bucket(LimitsOf(c).burst - 1.0, late)
    ensures var u := CallStep(c, CreatedTable(c, 0.0), Call(VISITOR, 0.0, 0.0, late));
      && u.partitions == map[VISITOR := Entry(Bucket(LimitsOf(c).burst - 1.0, late), 0.0)]
      && u.nextCleanup <= c.entryTTL
  {
    RefillIsMonotone(LimitsOf(c), 0.0, 0.0, late);
    assert Step(LimitsOf(c), Created(LimitsOf(c), 0.0), late) == Bucket(LimitsOf(c).burst - 1.0, late);
  }

  /** What is refilled after such a call falls short of its token. */
  lemma LateFallsShort(l: Limits, ttl: real, lag: real)
    requires l.rate > 0.0 && Refill(l, 0.0, ttl) < Refill(l, 0.0, lag) + 1.0
    ensures Refill(l, Min(lag, ttl), ttl) < 1.0
  {
    RefillSplits(l, 0.0, Min(lag, ttl), ttl);
    NoRefillAtOnce(l, ttl);
  }

  /** A time to live that does not refill one token more than the lag: spend one token at
      the end of the lag. */
  lemma ShortOfLagTells(c: Config, lag: real)
    requires Normal(c) && lag >= 0.0
    requires Refill(LimitsOf(c), 0.0, c.entryTTL) < Refill(LimitsOf(c), 0.0, lag) + 1.0
    ensures !Transparent(c, lag)
  {
    var late := Min(lag, c.entryTTL);
    var call := Call(VISITOR, 0.0, 0.0, late);
    var b := Bucket(LimitsOf(c).burst - 1.0, late);
    FirstLate(c, late);
    LateFallsShort(LimitsOf(c), c.entryTTL, lag);
    Visit(c, lag, [], CreatedTable(c, 0.0), None, 0.0, 0.0, late);
    RipeEntryTells(c, lag, [] + [call], CallStep(c, CreatedTable(c, 0.0), call), Some(b), late, c.entryTTL);
  }

  /** The instants of that run: the late call's reading, and the eviction. */
  lemma LateDrain(l: Limits, ttl: real, lag: real, accrual: real)
    requires l.rate > 0.0 && lag >= 0.0 && l.burst >= 1.0 && Refill(l, 0.0, accrual) == 1.0
    requires l.burst <= Refill(l, 0.0, ttl) < l.burst + Min(1.0, Refill(l, 0.0, lag))
    ensures var late := Min(lag, accrual);
      var seen := accrual - late;
      && 0.0 < late && 0.0 <= seen < ttl && accrual <= seen + ttl
      && Refill(l, accrual, seen + ttl) < l.burst
  {
    var late := Min(lag, accrual);
    RefillIsStrict(l, 0.0, accrual);
    RefillIsStrict(l, 0.0, lag);
    RefillIsStrict(l, ttl, accrual);
    RefillSplits(l, 0.0, ttl, accrual);
    assert Refill(l, 0.0, late) == Min(1.0, Refill(l, 0.0, lag)) by {
      if lag <= accrual {
        RefillIsMonotone(l, 0.0, lag, accrual);
      } else {
        RefillIsMonotone(l, 0.0, accrual, lag);
      }
    }
    RefillSplits(l, 0.0, late, ttl);
    RefillOfLongerSpan(l, accrual, accrual - late + ttl, late, ttl);
  }

  lemma LateSpend(c: Config, seen: real, accrual: real)
    requires Normal(c) && 0.0 <= seen < c.entryTTL && Refill(LimitsOf(c), 0.0, accrual) == 1.0
    ensures Step(LimitsOf(c), Bucket(0.0, 0.0), accrual) == Bucket(0.0, accrual)
    ensures var u := CallStep(c, Spent(c, c.burst), Call(VISITOR, seen, seen, accrual));
      && u.partitions == map[VISITOR := Entry(Bucket(0.0, accrual), seen)]
      && u.nextCleanup <= seen + c.entryTTL
  {
    var t := Spent(c, c.burst);
    assert Step(LimitsOf(c), Bucket(0.0, 0.0), accrual) == Bucket(0.0, accrual);
    assert Cleaned(c, t, seen).partitions == t.partitions;
  }

  /** Spend the burst, and the next token, as it accrues, at the end of a lag. */
  lemma SpendLate(c: Config, lag: real, accrual: real) returns (calls: seq<Call>, u: Table, seen: real)
    requires Normal(c) && lag >= 0.0 && Refill(LimitsOf(c), 0.0, accrual) == 1.0
    requires var gain := Refill(LimitsOf(c), 0.0, c.entryTTL);
      LimitsOf(c).burst <= gain < LimitsOf(c).burst + Min(1.0, Refill(LimitsOf(c), 0.0, lag))
    ensures Reaches(c, lag, calls, u, Some(Bucket(0.0, accrual)), accrual)
    ensures u.partitions == map[VISITOR := Entry(Bucket(0.0, accrual), seen)] && u.nextCleanup <= seen + c.entryTTL
    ensures accrual <= seen + c.entryTTL && Refill(LimitsOf(c), accrual, seen + c.entryTTL) < LimitsOf(c).burst
  {
    var late := Min(lag, accrual);
    seen := accrual - late;
    LateDrain(LimitsOf(c), c.entryTTL, lag, accrual);
    var spent := Spend(c, lag, c.burst);
    LateSpend(c, seen, accrual);
    Visit(c, lag, spent, Spent(c, c.burst), Some(Bucket(0.0, 0.0)), 0.0, seen, accrual);
    var call := Call(VISITOR, seen, seen, accrual);
    calls, u := spent + [call], CallStep(c, Spent(c, c.burst), call);
  }

  /** A time to live that does not refill a burst and what the lag refills, up to one token:
      such a run tells. */
  lemma ShortOfBothTells(c: Config, lag: real)
    requires Normal(c) && lag >= 0.0
    requires var gain := Refill(LimitsOf(c), 0.0, c.entryTTL);
      LimitsOf(c).burst <= gain < LimitsOf(c).burst + Min(1.0, Refill(LimitsOf(c), 0.0, lag))
    ensures !Transparent(c, lag)
  {
    var accrual := AccrualTime(LimitsOf(c));
    var calls, u, seen := SpendLate(c, lag, accrual);
    RipeEntryTells(c, lag, calls, u, Some(Bucket(0.0, accrual)), accrual, seen + c.entryTTL);
  }

  lemma AccrualTime(l: Limits) returns (accrual: real)
    requires l.rate > 0.0
    ensures Refill(l, 0.0, accrual) == 1.0
  {
    accrual := 1.0 / l.rate;
    var rate := l.rate;
    assert accrual * rate == 1.0;
  }

  /** Eviction is invisible in all sequential runs whose readings are at most `lag` apart if
      and only if an idle time to live refills enough. */
  lemma EvictionIsInvisibleExactlyWhen(c: Config, lag: real)
    requires Normal(c) && lag >= 0.0
    ensures Transparent(c, lag) <==> RefillsEnough(c, lag)
  {
    var l := LimitsOf(c);
    var gain := Refill(l, 0.0, c.entryTTL);
    if RefillsEnough(c, lag) {
      forall start: real, calls: seq<Call>, key: string, i: nat
        | i < |calls| && KeyOf(calls[i].key) == key && Sequential(start, calls) && Lagging(calls, lag)
          && NeverOverflows(c, CreatedTable(c, start), calls, key)
        ensures DecidesIdeally(c, start, calls, key, i)
      {
        EvictionIsInvisible(c, start, calls, key, lag, i);
      }
    } else if gain < l.burst {
      ShortOfBurstTells(c, lag);
    } else if gain < Refill(l, 0.0, lag) + 1.0 {
      ShortOfLagTells(c, lag);
    } else {
      ShortOfBothTells(c, lag);
    }
  }

  /** With one clock reading a call: if and only if an idle time to live refills a burst. */
  lemma EvictionWithoutLag(c: Config)
    requires Normal(c)
    ensures Transparent(c, 0.0) <==> c.entryTTL * LimitsOf(c).rate >= LimitsOf(c).burst
  {
    EvictionIsInvisibleExactlyWhen(c, 0.0);
    NeededWithoutLag(c);
  }
}
