/** How much one process can admit over all keys at once: the aggregate bound of the
    partitioned limiter over a window shorter than the time to live.

    The proof keeps an account. Each live bucket may still admit its current level plus
    what it can refill until the end of the window; admissions, evictions and the passing
    of time only lower that sum, and a new bucket adds one full allowance. */
module FloodBound {
  import opened TokenBucket
  import opened PartitionedLimiter

  /** What one bucket may admit in a window: a burst and the refill of its length. */
  function Allowance(l: Limits, from: real, end: real): real {
    l.burst + Refill(l, from, end)
  }

  /** What a bucket can still admit from `t` until `end`. */
  function Room(l: Limits, b: Bucket, t: real, end: real): real {
    Level(l, b, t) + Refill(l, t, end)
  }

  /** `n` times `each` (see `SharesIsProduct`), written without a product of unknowns. */
  function Shares(n: nat, each: real): real {
    if n == 0 then 0.0 else Shares(n - 1, each) + each
  }

  lemma {:induction false} SharesIsProduct(n: nat, each: real)
    ensures Shares(n, each) == n as real * each
  {
    if n > 0 {
      SharesIsProduct(n - 1, each);
      assert n as real * each == (n - 1) as real * each + each;
    }
  }

  function Product(n: nat, each: real): real {
    n as real * each
  }

  lemma WithinProduct(count: nat, n: nat, each: real)
    requires count as real <= Shares(n, each)
    ensures count as real <= Product(n, each)
  {
    SharesIsProduct(n, each);
  }

  lemma {:induction false} SharesAdd(a: nat, b: nat, limit: nat, each: real)
    requires a + b <= limit && each >= 0.0
    ensures Shares(a, each) + Shares(b, each) <= Shares(limit, each)
  {
    if limit > 0 {
      if b > 0 {
        SharesAdd(a, b - 1, limit - 1, each);
      } else if a > 0 {
        SharesAdd(a - 1, b, limit - 1, each);
      } else {
        SharesAdd(a, b, limit - 1, each);
      }
    }
  }

  ghost function RoomOfAll(l: Limits, m: map<string, Entry>, t: real, end: real): real {
    if m == map[] then 0.0
    else
      var k :| k in m;
      Room(l, m[k].bucket, t, end) + RoomOfAll(l, m - {k}, t, end)
  }

  lemma {:induction false} RoomWithout(l: Limits, m: map<string, Entry>, k: string, t: real, end: real)
    requires k in m
    ensures RoomOfAll(l, m, t, end) == Room(l, m[k].bucket, t, end) + RoomOfAll(l, m - {k}, t, end)
    decreases |m|
  {
    var p :| p in m && RoomOfAll(l, m, t, end) == Room(l, m[p].bucket, t, end) + RoomOfAll(l, m - {p}, t, end);
    if p != k {
      RoomWithout(l, m - {p}, k, t, end);
      RoomWithout(l, m - {k}, p, t, end);
      assert m - {p} - {k} == m - {k} - {p};
    }
  }

  lemma RoomOfUpdate(l: Limits, m: map<string, Entry>, k: string, e: Entry, t: real, end: real)
    ensures RoomOfAll(l, m[k := e], t, end)
         == Room(l, e.bucket, t, end) + RoomOfAll(l, m - {k}, t, end)
  {
    RoomWithout(l, m[k := e], k, t, end);
    assert m[k := e] - {k} == m - {k};
  }

  /** Buckets kept in their range up to `t`. */
  predicate AllSound(l: Limits, t: Table, now: real) {
    && (forall k | k in t.partitions :: Sound(l, t.partitions[k].bucket, now))
    && Sound(l, t.overflow.bucket, now)
  }

  lemma RoomShrinks(l: Limits, b: Bucket, t: real, now: real, end: real)
    requires l.rate >= 0.0 && Sound(l, b, t) && t <= now <= end
    ensures 0.0 <= Room(l, b, now, end) <= Room(l, b, t, end) <= Allowance(l, t, end)
  {
    LevelAdvances(l, b, t, now);
    RefillSplits(l, t, now, end);
    RefillIsMonotone(l, now, now, end);
    RefillIsMonotone(l, t, t, now);
    StepIsSound(l, b, t);
  }

  lemma {:induction false} RoomOfAllShrinks(l: Limits, m: map<string, Entry>, t: real, now: real, end: real)
    requires l.rate >= 0.0 && t <= now <= end && forall k | k in m :: Sound(l, m[k].bucket, t)
    ensures 0.0 <= RoomOfAll(l, m, now, end) <= RoomOfAll(l, m, t, end)
    ensures RoomOfAll(l, m, t, end) <= Shares(|m|, Allowance(l, t, end))
    decreases |m|
  {
    if m != map[] {
      var k :| k in m;
      RoomWithout(l, m, k, t, end);
      RoomWithout(l, m, k, now, end);
      RoomShrinks(l, m[k].bucket, t, now, end);
      RoomOfAllShrinks(l, m - {k}, t, now, end);
      assert |m.Keys - {k}| == |m| - 1 && (m - {k}).Keys == m.Keys - {k};
    }
  }

  lemma {:induction false} FewerEntriesHaveLessRoom(l: Limits, m: map<string, Entry>, n: map<string, Entry>,
                                                    t: real, end: real)
    requires l.rate >= 0.0 && t <= end && forall k | k in m :: Sound(l, m[k].bucket, t)
    requires n.Keys <= m.Keys && forall k | k in n :: n[k] == m[k]
    ensures RoomOfAll(l, n, t, end) <= RoomOfAll(l, m, t, end)
    decreases |m|
  {
    if m == map[] {
      assert n == map[];
    } else {
      var k :| k in m;
      RoomWithout(l, m, k, t, end);
      RoomShrinks(l, m[k].bucket, t, t, end);
      assert (m - {k}).Keys == m.Keys - {k};
      FewerEntriesHaveLessRoom(l, m - {k}, n - {k}, t, end);
      if k in n {
        RoomWithout(l, n, k, t, end);
      } else {
        assert n - {k} == n;
      }
    }
  }

  // ----- the account over a window

  /** Admissions of a run of calls, over all keys. */
  function Admissions(c: Config, t: Table, calls: seq<Call>): nat {
    if calls == [] then 0
    else
      var past := calls[..|calls| - 1];
      Admissions(c, t, past) + if Allowed(c, TableAfter(c, t, past), calls[|calls| - 1]) then 1 else 0
  }

  /** The keys whose buckets a run of calls creates. */
  function Births(c: Config, t: Table, calls: seq<Call>): seq<string> {
    if calls == [] then []
    else
      var past := calls[..|calls| - 1];
      var call := calls[|calls| - 1];
      var key := KeyOf(call.key);
      if Route(c, TableAfter(c, t, past), key, call.seen) == Fresh then Births(c, t, past) + [key]
      else Births(c, t, past)
  }

  predicate Distinct(s: seq<string>) {
    forall i, j | 0 <= i < j < |s| :: s[i] != s[j]
  }

  /** All keys seen in the window are still there, since it is shorter than the time to live. */
  predicate BirthsLive(births: seq<string>, t: Table, from: real) {
    Distinct(births) && forall k | k in births :: k in t.partitions && t.partitions[k].lastSeen >= from
  }

  /** The balance of the account: admissions so far and what all buckets can still admit. */
  ghost function Balance(l: Limits, t: Table, now: real, end: real): real {
    RoomOfAll(l, t.partitions, now, end) + Room(l, t.overflow.bucket, now, end)
  }

  lemma CleanupLowersBalance(c: Config, t: Table, was: real, now: real, end: real)
    requires Normal(c) && was <= now <= end && AllSound(LimitsOf(c), t, was)
    ensures AllSound(LimitsOf(c), Cleaned(c, t, now), now)
    ensures Balance(LimitsOf(c), Cleaned(c, t, now), now, end) <= Balance(LimitsOf(c), t, was, end)
  {
    var l := LimitsOf(c);
    RoomOfAllShrinks(l, t.partitions, was, now, end);
    RoomShrinks(l, t.overflow.bucket, was, now, end);
    FewerEntriesHaveLessRoom(l, t.partitions, Cleaned(c, t, now).partitions, now, end);
  }

  lemma LookupBalance(c: Config, t: Table, key: string, was: real, now: real, born: real, end: real)
    requires Normal(c) && was <= now <= born <= end && AllSound(LimitsOf(c), t, was)
    ensures AllSound(LimitsOf(c), Lookup(c, t, key, now, born), born)
    ensures Balance(LimitsOf(c), Lookup(c, t, key, now, born), born, end)
         <= Balance(LimitsOf(c), t, was, end)
          + if Route(c, t, key, now) == Fresh then Allowance(LimitsOf(c), born, end) else 0.0
  {
    var l := LimitsOf(c);
    CleanupLowersBalance(c, t, was, now, end);
    var u := Cleaned(c, t, now);
    RoomOfAllShrinks(l, u.partitions, now, born, end);
    RoomShrinks(l, u.overflow.bucket, now, born, end);
    var v := Lookup(c, t, key, now, born);
    match Route(c, t, key, now)
    case Existing =>
      RoomWithout(l, u.partitions, key, born, end);
      RoomOfUpdate(l, u.partitions, key, v.partitions[key], born, end);
    case Fresh =>
      assert u.partitions - {key} == u.partitions;
      RoomOfUpdate(l, u.partitions, key, v.partitions[key], born, end);
      RoomShrinks(l, Created(l, born), born, born, end);
    case Overflow =>
  }

  lemma DecisionBalance(c: Config, t: Table, key: string, was: real, at: real, end: real)
    requires Normal(c) && was <= at <= end && AllSound(LimitsOf(c), t, was)
    ensures var l := LimitsOf(c);
      var b := EntryFor(t, key).bucket;
      var u := WithBucket(t, key, Step(l, b, at));
      && AllSound(l, u, at)
      && Balance(l, u, at, end) + (if Admits(l, b, at) then 1.0 else 0.0) <= Balance(l, t, was, end)
  {
    var l := LimitsOf(c);
    var b := EntryFor(t, key).bucket;
    RoomOfAllShrinks(l, t.partitions, was, at, end);
    RoomShrinks(l, t.overflow.bucket, was, at, end);
    LevelAfterStep(l, b, at);
    StepIsSound(l, b, at);
    if key in t.partitions {
      RoomWithout(l, t.partitions, key, at, end);
      RoomOfUpdate(l, t.partitions, key, t.partitions[key].(bucket := Step(l, b, at)), at, end);
    }
  }

  lemma CallBalance(c: Config, t: Table, call: Call, was: real, end: real)
    requires Normal(c) && was <= call.seen <= call.born <= call.at <= end && AllSound(LimitsOf(c), t, was)
    ensures AllSound(LimitsOf(c), CallStep(c, t, call), call.at)
    ensures Balance(LimitsOf(c), CallStep(c, t, call), call.at, end) + (if Allowed(c, t, call) then 1.0 else 0.0)
         <= Balance(LimitsOf(c), t, was, end)
          + if Route(c, t, KeyOf(call.key), call.seen) == Fresh then Allowance(LimitsOf(c), call.born, end) else 0.0
  {
    LookupBalance(c, t, KeyOf(call.key), was, call.seen, call.born, end);
    DecisionBalance(c, LookedUp(c, t, call), KeyOf(call.key), call.born, call.at, end);
  }

  lemma CallKeepsBirths(c: Config, t: Table, call: Call, births: seq<string>, from: real)
    requires BirthsLive(births, t, from) && from <= call.seen < from + c.entryTTL
    ensures var key := KeyOf(call.key);
      BirthsLive(if Route(c, t, key, call.seen) == Fresh then births + [key] else births, CallStep(c, t, call), from)
  {
    var u := Cleaned(c, t, call.seen);
    assert forall k | k in births :: k in u.partitions;
  }

  lemma LiveBirthsFit(births: seq<string>, t: Table, from: real)
    requires BirthsLive(births, t, from)
    ensures |births| <= |t.partitions|
  {
    var keys := set k | k in births;
    DistinctCount(births);
    CardinalityMonotone(keys, t.partitions.Keys);
  }

  lemma {:induction false} DistinctCount(s: seq<string>)
    requires Distinct(s)
    ensures |set k | k in s| == |s|
  {
    if s != [] {
      var n := |s| - 1;
      DistinctCount(s[..n]);
      assert (set k | k in s) == (set k | k in s[..n]) + {s[n]};
      assert s[n] !in s[..n];
    }
  }

  lemma {:induction false} WindowIsSound(c: Config, t: Table, from: real, calls: seq<Call>)
    requires Normal(c) && AllSound(LimitsOf(c), t, from)
    requires Sequential(from, calls) && LastAt(from, calls) < from + c.entryTTL
    ensures from <= LastAt(from, calls)
    ensures AllSound(LimitsOf(c), TableAfter(c, t, calls), LastAt(from, calls))
    ensures BirthsLive(Births(c, t, calls), TableAfter(c, t, calls), from)
  {
    if calls != [] {
      var n := |calls| - 1;
      WindowIsSound(c, t, from, calls[..n]);
      var u := TableAfter(c, t, calls[..n]);
      CallBalance(c, u, calls[n], LastAt(from, calls[..n]), calls[n].at);
      CallKeepsBirths(c, u, calls[n], Births(c, t, calls[..n]), from);
    }
  }

  lemma {:induction false} WindowAccount(c: Config, t: Table, from: real, calls: seq<Call>, end: real)
    requires Normal(c) && AllSound(LimitsOf(c), t, from)
    requires Sequential(from, calls) && LastAt(from, calls) <= end < from + c.entryTTL
    ensures Admissions(c, t, calls) as real + Balance(LimitsOf(c), TableAfter(c, t, calls), LastAt(from, calls), end)
         <= Balance(LimitsOf(c), t, from, end) + Shares(|Births(c, t, calls)|, Allowance(LimitsOf(c), from, end))
  {
    if calls != [] {
      var l := LimitsOf(c);
      var n := |calls| - 1;
      WindowIsSound(c, t, from, calls[..n]);
      WindowAccount(c, t, from, calls[..n], end);
      var u := TableAfter(c, t, calls[..n]);
      CallBalance(c, u, calls[n], LastAt(from, calls[..n]), end);
      AllowanceShrinks(l, from, calls[n].born, end);
      var isNew := Route(c, u, KeyOf(calls[n].key), calls[n].seen) == Fresh;
      assert Shares(|Births(c, t, calls)|, Allowance(l, from, end))
          == Shares(|Births(c, t, calls[..n])|, Allowance(l, from, end))
           + if isNew then Allowance(l, from, end) else 0.0;
    }
  }

  lemma AllowanceShrinks(l: Limits, from: real, later: real, end: real)
    requires l.rate >= 0.0 && from <= later <= end
    ensures Allowance(l, later, end) <= Allowance(l, from, end)
  {
    RefillSplits(l, from, later, end);
    RefillIsMonotone(l, from, from, later);
  }

  lemma {:induction false} RunIsSound(c: Config, start: real, calls: seq<Call>)
    requires Normal(c) && Sequential(start, calls)
    ensures AllSound(LimitsOf(c), TableAfter(c, CreatedTable(c, start), calls), LastAt(start, calls))
  {
    if calls != [] {
      var n := |calls| - 1;
      RunIsSound(c, start, calls[..n]);
      CallBalance(c, TableAfter(c, CreatedTable(c, start), calls[..n]), calls[n],
                  LastAt(start, calls[..n]), calls[n].at);
    }
  }

  lemma NothingOwed(c: Config, t: Table, now: real, end: real)
    requires Normal(c) && AllSound(LimitsOf(c), t, now) && now <= end
    ensures var each := Allowance(LimitsOf(c), now, end);
      0.0 <= Balance(LimitsOf(c), t, now, end) <= Shares(|t.partitions|, each) + each && each >= 0.0
  {
    RoomOfAllShrinks(LimitsOf(c), t.partitions, now, now, end);
    RoomShrinks(LimitsOf(c), t.overflow.bucket, now, now, end);
  }

  lemma WindowIsBounded(c: Config, t: Table, from: real, window: seq<Call>, end: real)
    requires Normal(c) && AllSound(LimitsOf(c), t, from) && Bounded(c, t)
    requires Sequential(from, window) && LastAt(from, window) <= end < from + c.entryTTL
    ensures |Births(c, t, window)| <= c.maxPartitions
    ensures Admissions(c, t, window) as real <= Shares(2 * c.maxPartitions + 1, Allowance(LimitsOf(c), from, end))
  {
    WindowIsSound(c, t, from, window);
    WindowAccount(c, t, from, window, end);
    AlwaysBounded(c, t, window);
    LiveBirthsFit(Births(c, t, window), TableAfter(c, t, window), from);
    NothingOwed(c, TableAfter(c, t, window), LastAt(from, window), end);
    NothingOwed(c, t, from, end);
    SharesAdd(|t.partitions|, |Births(c, t, window)|, 2 * c.maxPartitions, Allowance(LimitsOf(c), from, end));
  }

  /** From any moment of any sequential run, a window of calls that ends less than a time
      to live later creates at most `maxPartitions` buckets and admits, over all keys, at
      most (2 * maxPartitions + 1) * (burst + rate * length). */
  lemma FloodIsBounded(c: Config, start: real, past: seq<Call>, from: real, window: seq<Call>, end: real)
    requires Normal(c) && Sequential(start, past) && LastAt(start, past) <= from
    requires Sequential(from, window) && LastAt(from, window) <= end < from + c.entryTTL
    ensures var t := TableAfter(c, CreatedTable(c, start), past);
      && |Births(c, t, window)| <= c.maxPartitions
      && Admissions(c, t, window) as real <= Product(2 * c.maxPartitions + 1, Allowance(LimitsOf(c), from, end))
  {
    var t := TableAfter(c, CreatedTable(c, start), past);
    RunIsSound(c, start, past);
    AlwaysBounded(c, CreatedTable(c, start), past);
    WindowIsBounded(c, t, from, window, end);
    WithinProduct(Admissions(c, t, window), 2 * c.maxPartitions + 1, Allowance(LimitsOf(c), from, end));
  }
}
