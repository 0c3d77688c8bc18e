/** What the keyed table owes its callers, said of runs and of what the table holds, not of
    how a lookup decides: who gets a bucket of their own, what the others get, and how often
    the table is cleaned. */
module TableLaws {
  import opened Wrappers
  import opened TokenBucket
  import opened PartitionedLimiter

  // ----- who gets a bucket

  /** The key under which a request is counted. */
  function Counted(requested: string): string {
    if requested == "" then "global" else requested
  }

  /** A request is left without a bucket of its own only when the table is full, and then it
      does not enter it. */
  lemma OverflowOnlyWhenFull(c: Config, t: Table, call: Call)
    ensures var u := CallStep(c, t, call);
      Counted(call.key) !in u.partitions ==> |u.partitions| >= c.maxPartitions
  {
    var looked := LookedUp(c, t, call);
    BucketStepKeepsKeys(looked, KeyOf(call.key), Step(LimitsOf(c), EntryFor(looked, KeyOf(call.key)).bucket, call.at));
  }

  predicate AllAmong(calls: seq<Call>, keys: set<string>) {
    forall i | 0 <= i < |calls| :: Counted(calls[i].key) in keys
  }

  lemma StepAmongKeepsOverflow(c: Config, t: Table, call: Call, keys: set<string>)
    requires t.partitions.Keys <= keys && Counted(call.key) in keys && |keys| <= c.maxPartitions
    ensures var u := CallStep(c, t, call);
      && u.partitions.Keys <= keys && Counted(call.key) in u.partitions && u.overflow == t.overflow
  {
    var v := Cleaned(c, t, call.seen);
    var key := Counted(call.key);
    if key !in v.partitions {
      assert v.partitions.Keys <= keys - {key};
      CardinalityMonotone(v.partitions.Keys, keys - {key});
      assert |v.partitions.Keys| < |keys|;
    }
  }

  /** As long as no more than `maxPartitions` different keys are used, everyone has a bucket:
      no call changes the overflow entry, and each leaves its own key in the table. */
  lemma {:induction false} RoomForEveryone(c: Config, t: Table, calls: seq<Call>, keys: set<string>)
    requires t.partitions.Keys <= keys && AllAmong(calls, keys) && |keys| <= c.maxPartitions
    ensures var u := TableAfter(c, t, calls);
      && u.partitions.Keys <= keys && u.overflow == t.overflow
      && (calls != [] ==> Counted(calls[|calls| - 1].key) in u.partitions)
  {
    if calls != [] {
      var past := calls[..|calls| - 1];
      RoomForEveryone(c, t, past, keys);
      StepAmongKeepsOverflow(c, TableAfter(c, t, past), calls[|calls| - 1], keys);
    }
  }

  /** No key gets into another's way: a call changes the bucket of its own key only, or the
      overflow bucket when its key is not in the table. */
  lemma OnlyOwnBucketChanges(c: Config, t: Table, call: Call, key: string)
    requires key != Counted(call.key) && key in CallStep(c, t, call).partitions
    ensures key in t.partitions && CallStep(c, t, call).partitions[key] == t.partitions[key]
    ensures Counted(call.key) in CallStep(c, t, call).partitions ==> CallStep(c, t, call).overflow == t.overflow
  {
  }

  // ----- what the others get

  /** The instants of the calls that were left without a bucket of their own. */
  function Overflowed(c: Config, t: Table, calls: seq<Call>): seq<real> {
    if calls == [] then []
    else
      var past := calls[..|calls| - 1];
      var call := calls[|calls| - 1];
      if Counted(call.key) in CallStep(c, TableAfter(c, t, past), call).partitions then Overflowed(c, t, past)
      else Overflowed(c, t, past) + [call.at]
  }

  /** All calls without a bucket of their own share one limiter as old as the table: it sees
      those calls and no others, and decides each of them. */
  lemma {:induction false} OverflowIsOneLimiter(c: Config, start: real, calls: seq<Call>)
    ensures TableAfter(c, CreatedTable(c, start), calls).overflow.bucket
         == After(LimitsOf(c), start, Overflowed(c, CreatedTable(c, start), calls))
    ensures calls != [] ==>
      var past := calls[..|calls| - 1];
      var call := calls[|calls| - 1];
      var t := TableAfter(c, CreatedTable(c, start), past);
      Counted(call.key) !in CallStep(c, t, call).partitions ==>
        Allowed(c, t, call)
        == Admits(LimitsOf(c), After(LimitsOf(c), start, Overflowed(c, CreatedTable(c, start), past)), call.at)
  {
    if calls != [] {
      var past := calls[..|calls| - 1];
      var call := calls[|calls| - 1];
      OverflowIsOneLimiter(c, start, past);
      var t := TableAfter(c, CreatedTable(c, start), past);
      var before := Overflowed(c, CreatedTable(c, start), past);
      OverflowStep(c, t, call);
      assert (before + [call.at])[..|before|] == before;
    }
  }

  lemma OverflowStep(c: Config, t: Table, call: Call)
    ensures var u := CallStep(c, t, call);
      if Counted(call.key) in u.partitions then u.overflow == t.overflow
      else
        && u.overflow.bucket == Step(LimitsOf(c), t.overflow.bucket, call.at)
        && Allowed(c, t, call) == Admits(LimitsOf(c), t.overflow.bucket, call.at)
  {
  }

  // ----- how often the table is cleaned

  /** The call evicts some entry. */
  predicate Evicts(c: Config, t: Table, call: Call) {
    exists k | k in t.partitions :: k !in CallStep(c, t, call).partitions
  }

  lemma {:induction false} CleanupIsDue(c: Config, t: Table, calls: seq<Call>, due: real)
    requires Normal(c) && due <= t.nextCleanup
    ensures due <= TableAfter(c, t, calls).nextCleanup
  {
    if calls != [] {
      CleanupIsDue(c, t, calls[..|calls| - 1], due);
    }
  }

  /** Evictions are at least a cleanup interval apart, and the first comes no sooner after
      the table was made. */
  lemma EvictionsAreSpaced(c: Config, t: Table, first: Call, between: seq<Call>, second: Call)
    requires Normal(c) && Evicts(c, t, first)
    requires Evicts(c, TableAfter(c, CallStep(c, t, first), between), second)
    ensures second.seen - first.seen >= c.cleanupInterval
  {
    CleanupIsDue(c, CallStep(c, t, first), between, first.seen + c.cleanupInterval);
  }

  lemma FirstEvictionWaits(c: Config, start: real, past: seq<Call>, call: Call)
    requires Normal(c) && Evicts(c, TableAfter(c, CreatedTable(c, start), past), call)
    ensures call.seen - start >= c.cleanupInterval
  {
    CleanupIsDue(c, CreatedTable(c, start), past, start + c.cleanupInterval);
  }
}
