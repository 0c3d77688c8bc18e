/** The bounded keyed limiter `PartitionedRateLimiter`: one token bucket a key, time-to-live
    eviction, and one shared overflow bucket once the table is full.

    The table is described by values first (`Table`, `Lookup`, `CallStep`); the class at
    the end works in place on objects and is proved to do exactly that. Durations and
    instants are reals, in seconds. */
module PartitionedLimiter {
  import opened Wrappers
  import opened TokenBucket

  const DEFAULT_ENTRY_TTL := 300.0
  const DEFAULT_MAX_PARTITIONS := 4096
  const DEFAULT_CLEANUP_INTERVAL := 60.0

  datatype Config = Config(requestsPerSecond: int, burst: int, entryTTL: real,
                           maxPartitions: int, cleanupInterval: real)

  predicate Normal(c: Config) {
    && c.requestsPerSecond >= 1 && c.burst >= 1 && c.maxPartitions >= 1
    && 0.0 < c.cleanupInterval <= c.entryTTL
  }

  /** Legal settings are kept, each by itself, the others get their defaults, and the
      cleanup interval never exceeds the time to live. */
  function Normalize(cfg: Config): (c: Config)
    ensures Normal(c)
    ensures Normal(cfg) ==> c == cfg
    ensures c.requestsPerSecond == cfg.requestsPerSecond || (cfg.requestsPerSecond <= 0 && c.requestsPerSecond == 1)
    ensures c.burst == cfg.burst || (cfg.burst <= 0 && c.burst == 1)
    ensures c.entryTTL == cfg.entryTTL || (cfg.entryTTL <= 0.0 && c.entryTTL == DEFAULT_ENTRY_TTL)
    ensures c.maxPartitions == cfg.maxPartitions
         || (cfg.maxPartitions <= 0 && c.maxPartitions == DEFAULT_MAX_PARTITIONS)
    ensures 0.0 < cfg.cleanupInterval <= c.entryTTL ==> c.cleanupInterval == cfg.cleanupInterval
    ensures cfg.cleanupInterval > c.entryTTL ==> c.cleanupInterval == c.entryTTL
    ensures cfg.cleanupInterval <= 0.0 && c.entryTTL < DEFAULT_CLEANUP_INTERVAL ==> c.cleanupInterval == c.entryTTL
    ensures cfg.cleanupInterval <= 0.0 && c.entryTTL >= DEFAULT_CLEANUP_INTERVAL ==>
      c.cleanupInterval == DEFAULT_CLEANUP_INTERVAL
  {
    var requests := if cfg.requestsPerSecond <= 0 then 1 else cfg.requestsPerSecond;
    var burst := if cfg.burst <= 0 then 1 else cfg.burst;
    var ttl := if cfg.entryTTL <= 0.0 then DEFAULT_ENTRY_TTL else cfg.entryTTL;
    var limit := if cfg.maxPartitions <= 0 then DEFAULT_MAX_PARTITIONS else cfg.maxPartitions;
    var interval0 :=
      if cfg.cleanupInterval > 0.0 then cfg.cleanupInterval
      else if ttl < DEFAULT_CLEANUP_INTERVAL then ttl else DEFAULT_CLEANUP_INTERVAL;
    var interval1 := if interval0 > ttl then ttl else interval0;
    var interval := if interval1 <= 0.0 then 1.0 else interval1;
    Config(requests, burst, ttl, limit, interval)
  }

  function LimitsOf(c: Config): Limits {
    Limits(c.burst as real, c.requestsPerSecond as real)
  }

  // ----- the table as a value

  datatype Entry = Entry(bucket: Bucket, lastSeen: real)

  datatype Table = Table(nextCleanup: real, partitions: map<string, Entry>, overflow: Entry)

  /** One `AllowKey` call with its clock readings: the table's, the one a new bucket is
      born with, and the one the bucket refills to. */
  datatype Call = Call(key: string, seen: real, born: real, at: real)

  datatype Destination = Existing | Fresh | Overflow

  function KeyOf(key: string): string {
    if key == "" then "global" else key
  }

  function CreatedTable(c: Config, now: real): Table {
    Table(now + c.cleanupInterval, map[], Entry(Created(LimitsOf(c), now), now))
  }

  predicate Stale(c: Config, e: Entry, now: real) {
    now - e.lastSeen >= c.entryTTL
  }

  function Cleaned(c: Config, t: Table, now: real): Table {
    if now < t.nextCleanup then t
    else t.(partitions := map k | k in t.partitions && !Stale(c, t.partitions[k], now) :: t.partitions[k],
            nextCleanup := now + c.cleanupInterval)
  }

  function Destined(c: Config, u: Table, key: string): Destination {
    if key in u.partitions then Existing
    else if |u.partitions| < c.maxPartitions then Fresh
    else Overflow
  }

  function Resolved(c: Config, u: Table, key: string, now: real, born: real): Table {
    match Destined(c, u, key)
    case Existing => u.(partitions := u.partitions[key := u.partitions[key].(lastSeen := now)])
    case Fresh => u.(partitions := u.partitions[key := Entry(Created(LimitsOf(c), born), now)])
    case Overflow => u.(overflow := u.overflow.(lastSeen := now))
  }

  function Route(c: Config, t: Table, key: string, now: real): Destination {
    Destined(c, Cleaned(c, t, now), key)
  }

  /** `partitionForKey`: clean up, then find, create or fall back to the overflow entry. */
  function Lookup(c: Config, t: Table, key: string, now: real, born: real): Table {
    Resolved(c, Cleaned(c, t, now), key, now, born)
  }

  /** The entry a key resolves to right after its lookup. */
  function EntryFor(t: Table, key: string): Entry {
    if key in t.partitions then t.partitions[key] else t.overflow
  }

  function WithBucket(t: Table, key: string, b: Bucket): Table {
    if key in t.partitions then t.(partitions := t.partitions[key := t.partitions[key].(bucket := b)])
    else t.(overflow := t.overflow.(bucket := b))
  }

  function LookedUp(c: Config, t: Table, call: Call): Table {
    Lookup(c, t, KeyOf(call.key), call.seen, call.born)
  }

  function Allowed(c: Config, t: Table, call: Call): bool {
    Admits(LimitsOf(c), EntryFor(LookedUp(c, t, call), KeyOf(call.key)).bucket, call.at)
  }

  function CallStep(c: Config, t: Table, call: Call): Table {
    var u := LookedUp(c, t, call);
    var key := KeyOf(call.key);
    WithBucket(u, key, Step(LimitsOf(c), EntryFor(u, key).bucket, call.at))
  }

  /** The table after a run of calls. */
  function TableAfter(c: Config, t: Table, calls: seq<Call>): Table {
    if calls == [] then t
    else CallStep(c, TableAfter(c, t, calls[..|calls| - 1]), calls[|calls| - 1])
  }

  // ----- bounds that hold for any clock readings

  predicate Bounded(c: Config, t: Table) {
    |t.partitions| <= c.maxPartitions
  }

  lemma CleanupShrinks(c: Config, t: Table, now: real)
    ensures Cleaned(c, t, now).partitions.Keys <= t.partitions.Keys
    ensures |Cleaned(c, t, now).partitions| <= |t.partitions|
  {
    CardinalityMonotone(Cleaned(c, t, now).partitions.Keys, t.partitions.Keys);
  }

  lemma CardinalityMonotone(a: set<string>, b: set<string>)
    requires a <= b
    ensures |a| <= |b|
  {
    assert b == a + (b - a);
  }

  /** One locked lookup keeps the bound, whatever its reading. */
  lemma LookupKeepsBound(c: Config, t: Table, key: string, now: real, born: real)
    requires Bounded(c, t)
    ensures Bounded(c, Lookup(c, t, key, now, born))
  {
    CleanupShrinks(c, t, now);
    var u := Cleaned(c, t, now);
    if Route(c, t, key, now) == Existing {
      assert Lookup(c, t, key, now, born).partitions.Keys == u.partitions.Keys;
    } else if Route(c, t, key, now) == Fresh {
      assert Lookup(c, t, key, now, born).partitions.Keys == u.partitions.Keys + {key};
    }
  }

  lemma BucketStepKeepsKeys(t: Table, key: string, b: Bucket)
    ensures WithBucket(t, key, b).partitions.Keys == t.partitions.Keys
    ensures |WithBucket(t, key, b).partitions| == |t.partitions|
  {
    assert |WithBucket(t, key, b).partitions.Keys| == |t.partitions.Keys|;
  }

  /** The table never holds more than `maxPartitions` keys, even with readings out of order. */
  lemma {:induction false} AlwaysBounded(c: Config, t: Table, calls: seq<Call>)
    requires Bounded(c, t)
    ensures Bounded(c, TableAfter(c, t, calls))
  {
    if calls != [] {
      var before := TableAfter(c, t, calls[..|calls| - 1]);
      var call := calls[|calls| - 1];
      AlwaysBounded(c, t, calls[..|calls| - 1]);
      LookupKeepsBound(c, before, KeyOf(call.key), call.seen, call.born);
      var u := LookedUp(c, before, call);
      BucketStepKeepsKeys(u, KeyOf(call.key), Step(LimitsOf(c), EntryFor(u, KeyOf(call.key)).bucket, call.at));
    }
  }

  /** A locked step of some concurrent call: a lookup, or the bucket step on the entry that
      an earlier lookup returned, which is still in the table or was evicted meanwhile. */
  datatype LockedStep =
    | Look(key: string, now: real, born: real)
    | RefillEntry(key: string, bucket: Bucket)
    | RefillEvicted

  function Locked(c: Config, t: Table, step: LockedStep): Table {
    match step
    case Look(key, now, born) => Lookup(c, t, key, now, born)
    case RefillEntry(key, bucket) => WithBucket(t, key, bucket)
    case RefillEvicted => t
  }

  function LockedAfter(c: Config, t: Table, steps: seq<LockedStep>): Table {
    if steps == [] then t else Locked(c, LockedAfter(c, t, steps[..|steps| - 1]), steps[|steps| - 1])
  }

  /** Nor does it under concurrency, in any interleaving of the locked steps. */
  lemma {:induction false} AnyInterleavingIsBounded(c: Config, t: Table, steps: seq<LockedStep>)
    requires Bounded(c, t)
    ensures Bounded(c, LockedAfter(c, t, steps))
  {
    if steps != [] {
      var before := LockedAfter(c, t, steps[..|steps| - 1]);
      AnyInterleavingIsBounded(c, t, steps[..|steps| - 1]);
      match steps[|steps| - 1]
      case Look(key, now, born) => LookupKeepsBound(c, before, key, now, born);
      case RefillEntry(key, bucket) => BucketStepKeepsKeys(before, key, bucket);
      case RefillEvicted =>
    }
  }

  /** No key is evicted to make room: an entry leaves only through its own idleness. */
  lemma RecentEntriesSurvive(c: Config, t: Table, call: Call, key: string)
    requires key in t.partitions && !Stale(c, t.partitions[key], call.seen)
    ensures key in CallStep(c, t, call).partitions
    ensures key != KeyOf(call.key) ==> CallStep(c, t, call).partitions[key] == t.partitions[key]
  {
  }

  // ----- sequential runs

  function LastAt(start: real, calls: seq<Call>): real {
    if calls == [] then start else calls[|calls| - 1].at
  }

  /** One call at a time, on a clock that does not run backwards. */
  predicate Sequential(start: real, calls: seq<Call>) {
    calls == [] ||
    (var n := |calls| - 1;
     && Sequential(start, calls[..n])
     && LastAt(start, calls[..n]) <= calls[n].seen <= calls[n].born <= calls[n].at)
  }

  /** Every entry was seen within the time to live before the last cleanup. */
  predicate Fresher(c: Config, t: Table) {
    forall k | k in t.partitions :: t.partitions[k].lastSeen > t.nextCleanup - c.cleanupInterval - c.entryTTL
  }

  lemma StepKeepsFresher(c: Config, t: Table, call: Call)
    requires Normal(c) && Fresher(c, t) && t.nextCleanup - c.cleanupInterval <= call.seen
    ensures Fresher(c, CallStep(c, t, call))
    ensures CallStep(c, t, call).nextCleanup - c.cleanupInterval <= call.seen
    ensures call.seen < CallStep(c, t, call).nextCleanup
  {
    var u := Cleaned(c, t, call.seen);
    assert Fresher(c, u);
  }

  lemma {:induction false} RunIsFresher(c: Config, start: real, calls: seq<Call>)
    requires Normal(c) && Sequential(start, calls)
    ensures var t := TableAfter(c, CreatedTable(c, start), calls);
      && Fresher(c, t)
      && t.nextCleanup - c.cleanupInterval <= LastAt(start, calls)
      && (calls != [] ==> calls[|calls| - 1].seen < t.nextCleanup)
  {
    if calls != [] {
      var n := |calls| - 1;
      RunIsFresher(c, start, calls[..n]);
      StepKeepsFresher(c, TableAfter(c, CreatedTable(c, start), calls[..n]), calls[n]);
    }
  }

  /** After any call every surviving entry was seen within the time to live plus one
      cleanup interval, hence within twice the time to live. */
  lemma NoEntryOutstaysItsWelcome(c: Config, start: real, calls: seq<Call>, key: string)
    requires Normal(c) && Sequential(start, calls) && calls != []
    requires key in TableAfter(c, CreatedTable(c, start), calls).partitions
    ensures var idle := calls[|calls| - 1].seen - TableAfter(c, CreatedTable(c, start), calls).partitions[key].lastSeen;
      idle < c.entryTTL + c.cleanupInterval <= 2.0 * c.entryTTL
  {
    RunIsFresher(c, start, calls);
  }

  /** A bucket that has been kept within its range up to `t`. */
  predicate Sound(l: Limits, b: Bucket, t: real) {
    0.0 <= b.tokens <= l.burst && b.last <= t
  }

  lemma StepIsSound(l: Limits, b: Bucket, t: real)
    requires Sound(l, b, t) && l.rate >= 0.0
    ensures Sound(l, Step(l, b, t), t) && 0.0 <= Level(l, b, t) <= l.burst
  {
    RefillIsMonotone(l, b.last, b.last, t);
  }

  // ----- the limiter object

  class PartitionEntry {
    const limiter: RateLimiter
    var lastSeen: real
    ghost const owner: Option<string>  // the key of this entry; None for the overflow entry

    ghost function View(): Entry
      reads this, limiter
    {
      Entry(limiter.View(), lastSeen)
    }

    constructor (requestsPerSecond: int, burst: int, born: real, now: real, ghost owner: Option<string>)
      ensures fresh(limiter) && this.owner == limiter.owner == owner
      ensures limiter.Bounds() == Limits(burst as real, requestsPerSecond as real)
      ensures View() == Entry(Created(limiter.Bounds(), born), now)
    {
      limiter := new RateLimiter(requestsPerSecond, burst, born, owner);
      lastSeen := now;
      this.owner := owner;
    }
  }

  class PartitionedRateLimiter {
    const config: Config
    var nextCleanup: real
    var partitions: map<string, PartitionEntry>
    const overflow: PartitionEntry
    ghost var table: Table         // the contents, as a value
    ghost var Repr: set<object>

    ghost predicate Holds(e: PartitionEntry, owner: Option<string>)
      reads this
    {
      && e in Repr && e.limiter in Repr
      && e.owner == e.limiter.owner == owner
      && e.limiter.Bounds() == LimitsOf(config)
    }

    /** Every entry and every bucket belongs to one key, or is the overflow's, and
        together they are the table. */
    ghost predicate Valid()
      reads this, Repr
    {
      && this in Repr && Normal(config)
      && Holds(overflow, None) && table.overflow == overflow.View()
      && table.nextCleanup == nextCleanup
      && table.partitions.Keys == partitions.Keys
      && forall k | k in partitions ::
           Holds(partitions[k], Some(k)) && table.partitions[k] == partitions[k].View()
    }

    constructor (cfg: Config, now: real, born: real)
      ensures Valid() && fresh(Repr)
      ensures config == Normalize(cfg)
      ensures table == Table(now + config.cleanupInterval, map[], Entry(Created(LimitsOf(config), born), now))
    {
      var c := Normalize(cfg);
      config := c;
      nextCleanup := now + c.cleanupInterval;
      partitions := map[];
      overflow := new PartitionEntry(c.requestsPerSecond, c.burst, born, now, None);
      table := Table(now + c.cleanupInterval, map[], Entry(Created(LimitsOf(c), born), now));
      new;
      Repr := {this, overflow, overflow.limiter};
    }

    /** The eviction loop: exactly the stale entries go. */
    method Evict(now: real)
      modifies this`partitions
      ensures partitions.Keys <= old(partitions.Keys)
      ensures forall k | k in old(partitions) ::
        k in partitions <==> now - old(partitions)[k].lastSeen < config.entryTTL
      ensures forall k | k in partitions :: partitions[k] == old(partitions)[k]
    {
      var pending := partitions.Keys;
      while pending != {}
        invariant pending <= partitions.Keys <= old(partitions.Keys)
        invariant forall k | k in old(partitions) && k !in pending ::
          k in partitions <==> now - old(partitions)[k].lastSeen < config.entryTTL
        invariant forall k | k in partitions :: partitions[k] == old(partitions)[k]
        decreases |pending|
      {
        var key :| key in pending;
        if now - partitions[key].lastSeen >= config.entryTTL {
          partitions := partitions - {key};
        }
        pending := pending - {key};
      }
    }

    method CleanupStaleLocked(now: real)
      requires Valid()
      modifies this`partitions, this`nextCleanup, this`table
      ensures Valid()
      ensures table == Cleaned(config, old(table), now)
    {
      if now < nextCleanup {
        return;
      }
      Evict(now);
      nextCleanup := now + config.cleanupInterval;
      table := Cleaned(config, table, now);
    }

    method SeeAgain(key: string, now: real) returns (entry: PartitionEntry)
      requires Valid() && key in partitions
      modifies this`table, partitions[key]
      ensures Valid()
      ensures table == old(table.(partitions := table.partitions[key := table.partitions[key].(lastSeen := now)]))
      ensures entry == partitions[key]
    {
      entry := partitions[key];
      entry.lastSeen := now;
      table := table.(partitions := table.partitions[key := table.partitions[key].(lastSeen := now)]);
    }

    method Add(key: string, now: real, born: real) returns (entry: PartitionEntry)
      requires Valid() && key !in partitions
      modifies this`table, this`partitions, this`Repr
      ensures Valid() && fresh(Repr - old(Repr))
      ensures table == old(table.(partitions := table.partitions[key := Entry(Created(LimitsOf(config), born), now)]))
      ensures key in partitions && entry == partitions[key]
    {
      entry := new PartitionEntry(config.requestsPerSecond, config.burst, born, now, Some(key));
      partitions := partitions[key := entry];
      Repr := Repr + {entry, entry.limiter};
      table := table.(partitions := table.partitions[key := Entry(Created(LimitsOf(config), born), now)]);
    }

    method SeeOverflow(now: real)
      requires Valid()
      modifies this`table, overflow
      ensures Valid()
      ensures table == old(table.(overflow := table.overflow.(lastSeen := now)))
    {
      overflow.lastSeen := now;
      table := table.(overflow := table.overflow.(lastSeen := now));
    }

    /** What follows the cleanup. */
    method Resolve(now: real, born: real, key: string) returns (entry: PartitionEntry)
      requires Valid()
      modifies Repr
      ensures Valid() && fresh(Repr - old(Repr))
      ensures table == Resolved(config, old(table), key, now, born)
      ensures entry == if key in partitions then partitions[key] else overflow
    {
      assert |table.partitions.Keys| == |partitions.Keys|;
      if key in partitions {
        entry := SeeAgain(key, now);
      } else if |partitions| < config.maxPartitions {
        entry := Add(key, now, born);
      } else {
        SeeOverflow(now);
        entry := overflow;
      }
    }

    method PartitionForKey(now: real, born: real, key: string) returns (entry: PartitionEntry)
      requires Valid()
      modifies Repr
      ensures Valid() && fresh(Repr - old(Repr))
      ensures table == Lookup(config, old(table), key, now, born)
      ensures entry == if key in partitions then partitions[key] else overflow
    {
      CleanupStaleLocked(now);
      entry := Resolve(now, born, key);
      assert fresh(Repr - old(Repr));
    }

    /** The bucket step of a call, on the entry its lookup returned. */
    method AllowEntry(entry: PartitionEntry, key: string, at: real) returns (allowed: bool)
      requires Valid()
      requires entry == if key in partitions then partitions[key] else overflow
      modifies this`table, entry.limiter
      ensures Valid()
      ensures allowed == Admits(LimitsOf(config), EntryFor(old(table), key).bucket, at)
      ensures table == WithBucket(old(table), key, Step(LimitsOf(config), EntryFor(old(table), key).bucket, at))
    {
      allowed := entry.limiter.Allow(at);
      table := WithBucket(table, key, entry.limiter.View());
    }

    method AllowKey(call: Call) returns (allowed: bool)
      requires Valid()
      modifies Repr
      ensures Valid() && fresh(Repr - old(Repr))
      ensures allowed == Allowed(config, old(table), call)
      ensures table == CallStep(config, old(table), call)
    {
      var key := call.key;
      if key == "" {
        key := "global";
      }
      var entry := PartitionForKey(call.seen, call.born, key);
      allowed := AllowEntry(entry, key, call.at);
    }
  }
}
