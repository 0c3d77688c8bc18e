/** The RED metrics of `HTTPMetrics` and `GRPCMetrics`: counters split over three maps, and a
    histogram that stores each observation in the first bucket it fits and is summed up
    when rendered. What both store is one model: a request has a group (method and path,
    or method and RPC type), a class (status class, or code) and may have failed. */
module Metrics {
  import opened Decimal

  datatype Group = Group(first: string, second: string)

  datatype Key = Key(group: Group, class_: string)

  datatype Observation = Observation(key: Key, failed: bool, seconds: real)

  datatype Duration = Duration(buckets: seq<nat>, sum: real, count: nat)

  datatype Counters = Counters(requests: map<Key, nat>, errors: map<Key, nat>, durations: map<Group, Duration>)

  const NOTHING := Counters(map[], map[], map[])

  /** Go's integer division truncates. */
  function StatusClass(statusCode: int): int {
    if statusCode >= 0 then statusCode / 100 else -(-statusCode / 100)
  }

  /** A completed HTTP request. */
  function HttpObservation(method_: string, path: string, statusCode: int, seconds: real): Observation {
    Observation(Key(Group(method_, path), Itoa(StatusClass(statusCode)) + "xx"), statusCode >= 400, seconds)
  }

  /** A completed RPC. */
  function RpcObservation(method_: string, rpcType: string, code: string, seconds: real): Observation {
    Observation(Key(Group(method_, rpcType), code), code != "OK", seconds)
  }

  // ----- recording

  /** The first bucket that admits a duration; the last one is the overflow. */
  function FirstFit(bounds: seq<real>, seconds: real): (i: nat)
    ensures i <= |bounds|
    ensures forall k | 0 <= k < i :: bounds[k] < seconds
    ensures i < |bounds| ==> seconds <= bounds[i]
  {
    if bounds == [] || seconds <= bounds[0] then 0 else 1 + FirstFit(bounds[1..], seconds)
  }

  function Get(m: map<Key, nat>, k: Key): nat {
    if k in m then m[k] else 0
  }

  function Empty(n: nat): Duration {
    Duration(seq(n, _ => 0), 0.0, 0)
  }

  function DurationOf(n: nat, m: map<Group, Duration>, g: Group): Duration {
    if g in m then m[g] else Empty(n + 1)
  }

  function Increment(m: map<Key, nat>, k: Key): map<Key, nat> {
    m[k := Get(m, k) + 1]
  }

  function Add(d: Duration, i: nat, seconds: real): Duration {
    Duration(if i < |d.buckets| then d.buckets[i := d.buckets[i] + 1] else d.buckets, d.sum + seconds, d.count + 1)
  }

  /** `observe` and `ObserveRPC`. */
  function Observe(bounds: seq<real>, c: Counters, o: Observation): Counters {
    var g := o.key.group;
    Counters(Increment(c.requests, o.key),
             if o.failed then Increment(c.errors, o.key) else c.errors,
             c.durations[g := Add(DurationOf(|bounds|, c.durations, g), FirstFit(bounds, o.seconds), o.seconds)])
  }

  function Recorded(bounds: seq<real>, h: seq<Observation>): Counters {
    if h == [] then NOTHING else Observe(bounds, Recorded(bounds, h[..|h| - 1]), h[|h| - 1])
  }

  // ----- the plain list of observations

  function Count(h: seq<Observation>, keep: Observation -> bool): nat {
    if h == [] then 0 else Count(h[..|h| - 1], keep) + if keep(h[|h| - 1]) then 1 else 0
  }

  function OfKey(k: Key): Observation -> bool {
    (o: Observation) => o.key == k
  }

  function FailedOfKey(k: Key): Observation -> bool {
    (o: Observation) => o.key == k && o.failed
  }

  function OfGroup(g: Group): Observation -> bool {
    (o: Observation) => o.key.group == g
  }

  function InBucket(bounds: seq<real>, g: Group, i: nat): Observation -> bool {
    (o: Observation) => o.key.group == g && FirstFit(bounds, o.seconds) == i
  }

  function AtMost(g: Group, bound: real): Observation -> bool {
    (o: Observation) => o.key.group == g && o.seconds <= bound
  }

  function Seconds(h: seq<Observation>, g: Group): real {
    if h == [] then 0.0
    else Seconds(h[..|h| - 1], g) + if h[|h| - 1].key.group == g then h[|h| - 1].seconds else 0.0
  }

  /** The counters are exactly the tallies of the list. */
  ghost predicate Tallies(bounds: seq<real>, c: Counters, h: seq<Observation>) {
    && (forall k :: Get(c.requests, k) == Count(h, OfKey(k)))
    && (forall k :: Get(c.errors, k) == Count(h, FailedOfKey(k)))
    && (forall g :: DurationTallies(bounds, c, h, g))
  }

  predicate DurationTallies(bounds: seq<real>, c: Counters, h: seq<Observation>, g: Group) {
    var d := DurationOf(|bounds|, c.durations, g);
    && |d.buckets| == |bounds| + 1
    && (forall i | 0 <= i <= |bounds| :: d.buckets[i] == Count(h, InBucket(bounds, g, i)))
    && d.count == Count(h, OfGroup(g))
    && d.sum == Seconds(h, g)
  }

  lemma CountSnoc(h: seq<Observation>, o: Observation, keep: Observation -> bool)
    ensures Count(h + [o], keep) == Count(h, keep) + if keep(o) then 1 else 0
  {
    assert (h + [o])[..|h|] == h;
  }

  lemma ObserveTallies(bounds: seq<real>, c: Counters, h: seq<Observation>, o: Observation)
    requires Tallies(bounds, c, h)
    ensures Tallies(bounds, Observe(bounds, c, o), h + [o])
  {
    var u := Observe(bounds, c, o);
    forall k
      ensures Get(u.requests, k) == Count(h + [o], OfKey(k))
      ensures Get(u.errors, k) == Count(h + [o], FailedOfKey(k))
    {
      CountSnoc(h, o, OfKey(k));
      CountSnoc(h, o, FailedOfKey(k));
    }
    forall g
      ensures DurationTallies(bounds, u, h + [o], g)
    {
      ObserveTalliesDuration(bounds, c, h, o, g);
    }
  }

  lemma ObserveTalliesDuration(bounds: seq<real>, c: Counters, h: seq<Observation>, o: Observation, g: Group)
    requires DurationTallies(bounds, c, h, g) && DurationTallies(bounds, c, h, o.key.group)
    ensures DurationTallies(bounds, Observe(bounds, c, o), h + [o], g)
  {
    assert (h + [o])[..|h|] == h;
    CountSnoc(h, o, OfGroup(g));
    forall i | 0 <= i <= |bounds|
      ensures Count(h + [o], InBucket(bounds, g, i))
           == Count(h, InBucket(bounds, g, i)) + if o.key.group == g && FirstFit(bounds, o.seconds) == i then 1 else 0
    {
      CountSnoc(h, o, InBucket(bounds, g, i));
    }
  }

  lemma {:induction false} RecordedTallies(bounds: seq<real>, h: seq<Observation>)
    ensures Tallies(bounds, Recorded(bounds, h), h)
  {
    if h != [] {
      RecordedTallies(bounds, h[..|h| - 1]);
      ObserveTallies(bounds, Recorded(bounds, h[..|h| - 1]), h[..|h| - 1], h[|h| - 1]);
      assert h[..|h| - 1] + [h[|h| - 1]] == h;
    }
  }

  // ----- rendering the histogram

  /** The running sum `renderPrometheus` writes for each `le`, `+Inf` last. */
  function Cumulative(buckets: seq<nat>, i: nat): nat
    requires i < |buckets|
  {
    if i == 0 then buckets[0] else Cumulative(buckets, i - 1) + buckets[i]
  }

  /** The largest of the first `i + 1` bounds. */
  function RunningMax(bounds: seq<real>, i: nat): (m: real)
    requires i < |bounds|
    ensures bounds[i] <= m
  {
    if i == 0 then bounds[0]
    else
      var m := RunningMax(bounds, i - 1);
      if m < bounds[i] then bounds[i] else m
  }

  lemma {:induction false} FitsUnderRunningMax(bounds: seq<real>, i: nat, seconds: real)
    requires i < |bounds|
    ensures FirstFit(bounds, seconds) <= i <==> seconds <= RunningMax(bounds, i)
  {
    if i > 0 {
      FitsUnderRunningMax(bounds, i - 1, seconds);
    }
  }

  function FitsBy(bounds: seq<real>, g: Group, i: nat): Observation -> bool {
    (o: Observation) => o.key.group == g && FirstFit(bounds, o.seconds) <= i
  }

  lemma {:induction false} CountsAdd(h: seq<Observation>, bounds: seq<real>, g: Group, i: nat)
    ensures Count(h, FitsBy(bounds, g, 0)) == Count(h, InBucket(bounds, g, 0))
    ensures i > 0 ==>
      Count(h, FitsBy(bounds, g, i)) == Count(h, FitsBy(bounds, g, i - 1)) + Count(h, InBucket(bounds, g, i))
  {
    if h != [] {
      CountsAdd(h[..|h| - 1], bounds, g, i);
    }
  }

  lemma {:induction false} SameCount(h: seq<Observation>, a: Observation -> bool, b: Observation -> bool)
    requires forall o | o in h :: a(o) == b(o)
    ensures Count(h, a) == Count(h, b)
  {
    if h != [] {
      SameCount(h[..|h| - 1], a, b);
    }
  }

  lemma {:induction false} CumulativeFits(bounds: seq<real>, c: Counters, h: seq<Observation>, g: Group, i: nat)
    requires DurationTallies(bounds, c, h, g) && i <= |bounds|
    ensures Cumulative(DurationOf(|bounds|, c.durations, g).buckets, i) == Count(h, FitsBy(bounds, g, i))
  {
    CountsAdd(h, bounds, g, i);
    if i > 0 {
      CumulativeFits(bounds, c, h, g, i - 1);
    }
  }

  function Rendered(bounds: seq<real>, h: seq<Observation>, g: Group): (d: Duration)
    ensures |d.buckets| == |bounds| + 1
  {
    RecordedTallies(bounds, h);
    assert DurationTallies(bounds, Recorded(bounds, h), h, g);
    DurationOf(|bounds|, Recorded(bounds, h).durations, g)
  }

  /** Whatever the configured buckets are, sorted or not: the rendered count at each `le`
      is the number of observations up to the largest bound so far. */
  lemma CountsUpToRunningMax(bounds: seq<real>, h: seq<Observation>, g: Group, i: nat)
    requires i < |bounds|
    ensures Cumulative(Rendered(bounds, h, g).buckets, i) == Count(h, AtMost(g, RunningMax(bounds, i)))
  {
    RecordedTallies(bounds, h);
    assert DurationTallies(bounds, Recorded(bounds, h), h, g);
    CumulativeFits(bounds, Recorded(bounds, h), h, g, i);
    forall o | o in h
      ensures FitsBy(bounds, g, i)(o) == AtMost(g, RunningMax(bounds, i))(o)
    {
      FitsUnderRunningMax(bounds, i, o.seconds);
    }
    SameCount(h, FitsBy(bounds, g, i), AtMost(g, RunningMax(bounds, i)));
  }

  predicate Ascending(bounds: seq<real>) {
    forall i, j | 0 <= i <= j < |bounds| :: bounds[i] <= bounds[j]
  }

  /** Every rendered count at every `le` is the number of observations up to that bound. */
  ghost predicate Exact(bounds: seq<real>) {
    forall h: seq<Observation>, g: Group, i: nat | i < |bounds| ::
      Cumulative(Rendered(bounds, h, g).buckets, i) == Count(h, AtMost(g, bounds[i]))
  }

  lemma {:induction false} AscendingMax(bounds: seq<real>, i: nat)
    requires i < |bounds| && Ascending(bounds)
    ensures RunningMax(bounds, i) == bounds[i]
  {
    if i > 0 {
      AscendingMax(bounds, i - 1);
    }
  }

  lemma {:induction false} MaxReaches(bounds: seq<real>, i: nat, j: nat)
    requires i <= j < |bounds|
    ensures bounds[i] <= RunningMax(bounds, j)
  {
    if i < j {
      MaxReaches(bounds, i, j - 1);
    }
  }

  /** The histogram is exact if and only if the configured buckets are in ascending order,
      which the code does not check. */
  lemma ExactIffAscending(bounds: seq<real>)
    ensures Exact(bounds) <==> Ascending(bounds)
  {
    if Ascending(bounds) {
      forall h: seq<Observation>, g: Group, i: nat | i < |bounds|
        ensures Cumulative(Rendered(bounds, h, g).buckets, i) == Count(h, AtMost(g, bounds[i]))
      {
        CountsUpToRunningMax(bounds, h, g, i);
        AscendingMax(bounds, i);
      }
    } else {
      var i, j :| 0 <= i <= j < |bounds| && bounds[i] > bounds[j];
      var g := Group("GET", "/");
      var o := Observation(Key(g, "2xx"), false, bounds[i]);
      CountsUpToRunningMax(bounds, [o], g, j);
      MaxReaches(bounds, i, j);
      CountSnoc([], o, AtMost(g, RunningMax(bounds, j)));
      CountSnoc([], o, AtMost(g, bounds[j]));
      assert [] + [o] == [o];
      assert Cumulative(Rendered(bounds, [o], g).buckets, j) != Count([o], AtMost(g, bounds[j]));
    }
  }

  /** The counts never decrease from one `le` to the next. */
  lemma {:induction false} CumulativeGrows(buckets: seq<nat>, i: nat, j: nat)
    requires i <= j < |buckets|
    ensures Cumulative(buckets, i) <= Cumulative(buckets, j)
  {
    if i < j {
      CumulativeGrows(buckets, i, j - 1);
    }
  }

  // ----- the series agree with each other

  ghost function SumOver(m: map<Key, nat>, g: Group): nat {
    if m == map[] then 0
    else
      var k :| k in m;
      (if k.group == g then m[k] else 0) + SumOver(m - {k}, g)
  }

  lemma {:induction false} SumWithout(m: map<Key, nat>, k: Key, g: Group)
    requires k in m
    ensures SumOver(m, g) == (if k.group == g then m[k] else 0) + SumOver(m - {k}, g)
    decreases |m|
  {
    var p :| p in m && SumOver(m, g) == (if p.group == g then m[p] else 0) + SumOver(m - {p}, g);
    if p != k {
      SumWithout(m - {p}, k, g);
      SumWithout(m - {k}, p, g);
      assert m - {p} - {k} == m - {k} - {p};
    }
  }

  lemma SumOfIncrement(m: map<Key, nat>, k: Key, g: Group)
    ensures SumOver(m[k := Get(m, k) + 1], g) == SumOver(m, g) + if k.group == g then 1 else 0
  {
    SumWithout(m[k := Get(m, k) + 1], k, g);
    assert m[k := Get(m, k) + 1] - {k} == m - {k};
    if k in m {
      SumWithout(m, k, g);
    } else {
      assert m - {k} == m;
    }
  }

  lemma {:induction false} RequestsSumUp(bounds: seq<real>, h: seq<Observation>, g: Group)
    ensures SumOver(Recorded(bounds, h).requests, g) == Count(h, OfGroup(g))
  {
    if h != [] {
      RequestsSumUp(bounds, h[..|h| - 1], g);
      SumOfIncrement(Recorded(bounds, h[..|h| - 1]).requests, h[|h| - 1].key, g);
    }
  }

  /** For every group, the `+Inf` bucket, `_count` and the requests of all classes agree,
      and are the number of observations; `_sum` is the sum of their seconds. */
  lemma SeriesAgree(bounds: seq<real>, h: seq<Observation>, g: Group)
    ensures var d := Rendered(bounds, h, g);
      && Cumulative(d.buckets, |bounds|) == d.count == SumOver(Recorded(bounds, h).requests, g)
      && d.count == Count(h, OfGroup(g))
      && d.sum == Seconds(h, g)
  {
    RecordedTallies(bounds, h);
    assert DurationTallies(bounds, Recorded(bounds, h), h, g);
    CumulativeFits(bounds, Recorded(bounds, h), h, g, |bounds|);
    SameCount(h, FitsBy(bounds, g, |bounds|), OfGroup(g));
    RequestsSumUp(bounds, h, g);
  }

  lemma {:induction false} FailuresAreRequests(h: seq<Observation>, k: Key)
    ensures Count(h, FailedOfKey(k)) <= Count(h, OfKey(k))
  {
    if h != [] {
      FailuresAreRequests(h[..|h| - 1], k);
    }
  }

  /** Every key's counters are its tallies, and errors never exceed requests. */
  lemma ErrorsWithinRequests(bounds: seq<real>, h: seq<Observation>, k: Key)
    ensures Get(Recorded(bounds, h).requests, k) == Count(h, OfKey(k))
    ensures Get(Recorded(bounds, h).errors, k) == Count(h, FailedOfKey(k))
    ensures Get(Recorded(bounds, h).errors, k) <= Get(Recorded(bounds, h).requests, k)
  {
    RecordedTallies(bounds, h);
    FailuresAreRequests(h, k);
  }

  // ----- errors are whole series

  ghost predicate IsHttp(o: Observation) {
    exists method_, path, statusCode, seconds :: o == HttpObservation(method_, path, statusCode, seconds)
  }

  ghost predicate IsRpc(o: Observation) {
    exists method_, rpcType, code, seconds :: o == RpcObservation(method_, rpcType, code, seconds)
  }

  lemma SameSuffix(a: string, b: string, suffix: string)
    requires a + suffix == b + suffix
    ensures a == b
  {
    assert |a| == |b| && (a + suffix)[..|a|] == a && (b + suffix)[..|b|] == b;
  }

  /** A status class tells whether its requests failed. */
  lemma ClassTellsFailure(o: Observation, class_: int)
    requires IsHttp(o) && o.key.class_ == Itoa(class_) + "xx"
    ensures o.failed <==> class_ >= 4
  {
    var method_, path, statusCode, seconds :| o == HttpObservation(method_, path, statusCode, seconds);
    SameSuffix(Itoa(class_), Itoa(StatusClass(statusCode)), "xx");
    ItoaIsInjective(class_, StatusClass(statusCode));
  }

  /** HTTP errors are counted in the classes 4xx and above, and there they are all requests. */
  lemma HttpErrorsAreWholeClasses(bounds: seq<real>, h: seq<Observation>, g: Group, class_: int)
    requires forall o | o in h :: IsHttp(o)
    ensures var c := Recorded(bounds, h);
      var k := Key(g, Itoa(class_) + "xx");
      Get(c.errors, k) == if class_ >= 4 then Get(c.requests, k) else 0
  {
    var k := Key(g, Itoa(class_) + "xx");
    forall o | o in h && o.key == k
      ensures o.failed <==> class_ >= 4
    {
      ClassTellsFailure(o, class_);
    }
    FailuresOfKey(bounds, h, k, class_ >= 4);
  }

  /** RPC errors are counted for every code but OK, and there they are all requests. */
  lemma RpcErrorsAreWholeCodes(bounds: seq<real>, h: seq<Observation>, k: Key)
    requires forall o | o in h :: IsRpc(o)
    ensures var c := Recorded(bounds, h);
      Get(c.errors, k) == if k.class_ != "OK" then Get(c.requests, k) else 0
  {
    FailuresOfKey(bounds, h, k, k.class_ != "OK");
  }

  lemma FailuresOfKey(bounds: seq<real>, h: seq<Observation>, k: Key, failing: bool)
    requires forall o | o in h && o.key == k :: o.failed == failing
    ensures Get(Recorded(bounds, h).errors, k) == if failing then Get(Recorded(bounds, h).requests, k) else 0
  {
    RecordedTallies(bounds, h);
    if failing {
      SameCount(h, FailedOfKey(k), OfKey(k));
    } else {
      SameCount(h, FailedOfKey(k), (o: Observation) => false);
      NothingCounts(h);
    }
  }

  lemma {:induction false} NothingCounts(h: seq<Observation>)
    ensures Count(h, (o: Observation) => false) == 0
  {
    if h != [] {
      NothingCounts(h[..|h| - 1]);
    }
  }

  // ----- completed requests, as they come

  /** A completed HTTP request. */
  datatype Completed = Completed(method_: string, path: string, statusCode: int, seconds: real)

  function Observed(rs: seq<Completed>): seq<Observation> {
    if rs == [] then []
    else
      var r := rs[|rs| - 1];
      Observed(rs[..|rs| - 1]) + [HttpObservation(r.method_, r.path, r.statusCode, r.seconds)]
  }

  function CountOf(rs: seq<Completed>, keep: Completed -> bool): nat {
    if rs == [] then 0 else CountOf(rs[..|rs| - 1], keep) + if keep(rs[|rs| - 1]) then 1 else 0
  }

  /** Requests of a method and path whose status is in the class: 200 to 299 for class 2. */
  function OfClass(method_: string, path: string, class_: int): Completed -> bool {
    (r: Completed) => r.method_ == method_ && r.path == path && 100 * class_ <= r.statusCode < 100 * (class_ + 1)
  }

  /** Requests of a method and path that took at most so long. */
  function Within(method_: string, path: string, bound: real): Completed -> bool {
    (r: Completed) => r.method_ == method_ && r.path == path && r.seconds <= bound
  }

  lemma ClassOfRequest(r: Completed, method_: string, path: string, class_: int)
    requires class_ >= 1
    ensures var o := HttpObservation(r.method_, r.path, r.statusCode, r.seconds);
      o.key == Key(Group(method_, path), Itoa(class_) + "xx") <==> OfClass(method_, path, class_)(r)
  {
    var o := HttpObservation(r.method_, r.path, r.statusCode, r.seconds);
    if o.key == Key(Group(method_, path), Itoa(class_) + "xx") {
      SameSuffix(Itoa(class_), Itoa(StatusClass(r.statusCode)), "xx");
      ItoaIsInjective(class_, StatusClass(r.statusCode));
    }
    assert StatusClass(r.statusCode) == class_ <==> 100 * class_ <= r.statusCode < 100 * (class_ + 1);
  }

  lemma {:induction false} CountsOfClass(rs: seq<Completed>, method_: string, path: string, class_: int)
    requires class_ >= 1
    ensures Count(Observed(rs), OfKey(Key(Group(method_, path), Itoa(class_) + "xx")))
         == CountOf(rs, OfClass(method_, path, class_))
  {
    if rs != [] {
      var n := |rs| - 1;
      var k := Key(Group(method_, path), Itoa(class_) + "xx");
      var o := HttpObservation(rs[n].method_, rs[n].path, rs[n].statusCode, rs[n].seconds);
      CountsOfClass(rs[..n], method_, path, class_);
      ClassOfRequest(rs[n], method_, path, class_);
      CountSnoc(Observed(rs[..n]), o, OfKey(k));
    }
  }

  lemma {:induction false} AllAreHttp(rs: seq<Completed>)
    ensures forall o | o in Observed(rs) :: IsHttp(o)
  {
    if rs != [] {
      AllAreHttp(rs[..|rs| - 1]);
      var r := rs[|rs| - 1];
      assert IsHttp(HttpObservation(r.method_, r.path, r.statusCode, r.seconds));
    }
  }

  /** Each request is counted once, for its method, its path and the hundreds of its status,
      and as an error exactly from 400 on. */
  lemma RequestsAreCounted(bounds: seq<real>, rs: seq<Completed>, method_: string, path: string, class_: int)
    requires class_ >= 1
    ensures var c := Recorded(bounds, Observed(rs));
      var k := Key(Group(method_, path), Itoa(class_) + "xx");
      var n := CountOf(rs, OfClass(method_, path, class_));
      Get(c.requests, k) == n && Get(c.errors, k) == if class_ >= 4 then n else 0
  {
    var k := Key(Group(method_, path), Itoa(class_) + "xx");
    CountsOfClass(rs, method_, path, class_);
    ErrorsWithinRequests(bounds, Observed(rs), k);
    AllAreHttp(rs);
    HttpErrorsAreWholeClasses(bounds, Observed(rs), Group(method_, path), class_);
  }

  lemma {:induction false} CountsWithin(rs: seq<Completed>, method_: string, path: string, bound: real)
    ensures Count(Observed(rs), AtMost(Group(method_, path), bound)) == CountOf(rs, Within(method_, path, bound))
  {
    if rs != [] {
      var n := |rs| - 1;
      CountsWithin(rs[..n], method_, path, bound);
      CountSnoc(Observed(rs[..n]), HttpObservation(rs[n].method_, rs[n].path, rs[n].statusCode, rs[n].seconds),
                AtMost(Group(method_, path), bound));
    }
  }

  /** And with ascending bounds each `le` counts the requests of the method and path that took
      at most so long. */
  lemma DurationsAreCounted(bounds: seq<real>, rs: seq<Completed>, method_: string, path: string, i: nat)
    requires Ascending(bounds) && i < |bounds|
    ensures Cumulative(Rendered(bounds, Observed(rs), Group(method_, path)).buckets, i)
         == CountOf(rs, Within(method_, path, bounds[i]))
  {
    CountsUpToRunningMax(bounds, Observed(rs), Group(method_, path), i);
    AscendingMax(bounds, i);
    CountsWithin(rs, method_, path, bounds[i]);
  }

  /** A completed RPC. */
  datatype Called = Called(method_: string, rpcType: string, code: string, seconds: real)

  function ObservedRpcs(rs: seq<Called>): seq<Observation> {
    if rs == [] then []
    else
      var r := rs[|rs| - 1];
      ObservedRpcs(rs[..|rs| - 1]) + [RpcObservation(r.method_, r.rpcType, r.code, r.seconds)]
  }

  function CountRpcs(rs: seq<Called>, keep: Called -> bool): nat {
    if rs == [] then 0 else CountRpcs(rs[..|rs| - 1], keep) + if keep(rs[|rs| - 1]) then 1 else 0
  }

  function WithCode(method_: string, rpcType: string, code: string): Called -> bool {
    (r: Called) => r.method_ == method_ && r.rpcType == rpcType && r.code == code
  }

  lemma {:induction false} RpcsOfCode(rs: seq<Called>, method_: string, rpcType: string, code: string)
    ensures forall o | o in ObservedRpcs(rs) :: IsRpc(o)
    ensures Count(ObservedRpcs(rs), OfKey(Key(Group(method_, rpcType), code)))
         == CountRpcs(rs, WithCode(method_, rpcType, code))
  {
    if rs != [] {
      var n := |rs| - 1;
      var o := RpcObservation(rs[n].method_, rs[n].rpcType, rs[n].code, rs[n].seconds);
      RpcsOfCode(rs[..n], method_, rpcType, code);
      CountSnoc(ObservedRpcs(rs[..n]), o, OfKey(Key(Group(method_, rpcType), code)));
      assert IsRpc(o);
    }
  }

  /** Each RPC is counted once, for its method, type and code, and as an error unless the code
      is OK. */
  lemma RpcsAreCounted(bounds: seq<real>, rs: seq<Called>, method_: string, rpcType: string, code: string)
    ensures var c := Recorded(bounds, ObservedRpcs(rs));
      var k := Key(Group(method_, rpcType), code);
      var n := CountRpcs(rs, WithCode(method_, rpcType, code));
      Get(c.requests, k) == n && Get(c.errors, k) == if code != "OK" then n else 0
  {
    var k := Key(Group(method_, rpcType), code);
    RpcsOfCode(rs, method_, rpcType, code);
    ErrorsWithinRequests(bounds, ObservedRpcs(rs), k);
    RpcErrorsAreWholeCodes(bounds, ObservedRpcs(rs), k);
  }

  // ----- the collector object

  /** The search loop of `observe`. */
  method BucketOf(bounds: seq<real>, seconds: real) returns (idx: nat)
    ensures idx == FirstFit(bounds, seconds)
  {
    idx := |bounds|;
    for i := 0 to |bounds|
      invariant idx == |bounds| && forall k | 0 <= k < i :: bounds[k] < seconds
    {
      if seconds <= bounds[i] {
        return i;
      }
    }
  }

  const DEFAULT_BOUNDS := [0.005, 0.01, 0.025, 0.05, 0.1, 0.25, 0.5, 1.0, 2.5, 5.0, 10.0]

  /** The default histogram is exact. */
  lemma DefaultIsExact()
    ensures Exact(DEFAULT_BOUNDS)
  {
    ExactIffAscending(DEFAULT_BOUNDS);
  }

  class Collector {
    const bounds: seq<real>
    var requests: map<Key, nat>
    var errors: map<Key, nat>
    var durations: map<Group, Duration>

    ghost function View(): Counters
      reads this
    {
      Counters(requests, errors, durations)
    }

    /** Every stored histogram has one bucket a bound, and the overflow. */
    ghost predicate Valid()
      reads this
    {
      forall g | g in durations :: |durations[g].buckets| == |bounds| + 1
    }

    constructor (bounds: seq<real>)
      ensures Valid() && this.bounds == (if bounds == [] then DEFAULT_BOUNDS else bounds) && View() == NOTHING
    {
      this.bounds := if |bounds| == 0 then DEFAULT_BOUNDS else bounds;
      requests, errors, durations := map[], map[], map[];
    }

    method Record(o: Observation)
      requires Valid()
      modifies this
      ensures Valid() && View() == Observe(bounds, old(View()), o)
    {
      requests := requests[o.key := (if o.key in requests then requests[o.key] else 0) + 1];
      if o.failed {
        errors := errors[o.key := (if o.key in errors then errors[o.key] else 0) + 1];
      }
      var g := o.key.group;
      var value := if g in durations then durations[g] else Empty(|bounds| + 1);
      var idx := BucketOf(bounds, o.seconds);
      assert value == DurationOf(|bounds|, durations, g);
      var added := Duration(value.buckets[idx := value.buckets[idx] + 1], value.sum + o.seconds, value.count + 1);
      assert added == Add(value, idx, o.seconds) && |added.buckets| == |bounds| + 1;
      durations := durations[g := added];
    }

    /** The counts `renderPrometheus` writes for one group, `+Inf` last. */
    method BucketCounts(g: Group) returns (counts: seq<nat>)
      requires Valid() && g in durations
      ensures |counts| == |bounds| + 1
      ensures forall i | 0 <= i <= |bounds| :: counts[i] == Cumulative(durations[g].buckets, i)
    {
      counts := RunningCounts(durations[g].buckets);
    }
  }

  /** The rendering loop: one count a bound, then the overflow's. */
  method RunningCounts(buckets: seq<nat>) returns (counts: seq<nat>)
    requires |buckets| > 0
    ensures |counts| == |buckets|
    ensures forall i | 0 <= i < |buckets| :: counts[i] == Cumulative(buckets, i)
  {
    var n := |buckets| - 1;
    var cumulative := 0;
    counts := [];
    for i := 0 to n
      invariant |counts| == i
      invariant cumulative == if i == 0 then 0 else Cumulative(buckets, i - 1)
      invariant forall k | 0 <= k < i :: counts[k] == Cumulative(buckets, k)
    {
      cumulative := cumulative + buckets[i];
      counts := counts + [cumulative];
    }
    counts := counts + [cumulative + buckets[n]];
  }
}
