/** The distributed limiter `RedisRateLimiter`: a token bucket kept by a Lua script in Redis,
    a breaker that counts failures, and the partitioned limiter as its fallback. */
module RedisLimiter {
  import opened Wrappers
  import opened TokenBucket
  import opened FloodBound

  // ----- the script

  /** `tokenBucketScript`: the bucket it stores and whether it allows the request. */
  function RunScript(l: Limits, stored: Option<Bucket>, now: real): (Bucket, bool) {
    var tokens := if stored.Some? then stored.value.tokens else l.burst;
    var lastRefill := if stored.Some? then stored.value.last else now;
    var accrued := tokens + Refill(l, lastRefill, now);
    var refilled := if l.burst < accrued then l.burst else accrued;
    if refilled >= 1.0 then (Bucket(refilled - 1.0, now), true) else (Bucket(refilled, now), false)
  }

  lemma ScriptIsBucketStep(l: Limits, stored: Option<Bucket>, now: real)
    ensures var b := if stored.Some? then stored.value else Created(l, now);
      RunScript(l, stored, now) == (Step(l, b, now), Admits(l, b, now))
  {
    if stored.None? {
      NoRefillAtOnce(l, now);
      assert RunScript(l, stored, now) == RunScript(l, Some(Created(l, now)), now);
    }
  }

  /** What one key holds after script runs at `nows`, while it does not expire. */
  function Kept(l: Limits, nows: seq<real>): Option<Bucket> {
    if nows == [] then None
    else
      var n := |nows| - 1;
      Some(RunScript(l, Kept(l, nows[..n]), nows[n]).0)
  }

  function ScriptLog(l: Limits, nows: seq<real>): (log: seq<Event>)
    ensures |log| == |nows|
  {
    if nows == [] then []
    else
      var n := |nows| - 1;
      ScriptLog(l, nows[..n]) + [Event(nows[n], RunScript(l, Kept(l, nows[..n]), nows[n]).1)]
  }

  /** The key behaves as a limiter created at the first run. */
  lemma {:induction false} ScriptLogIsHistory(l: Limits, nows: seq<real>)
    requires nows != []
    ensures Kept(l, nows) == Some(After(l, nows[0], nows))
    ensures [Event(nows[0], false)] + ScriptLog(l, nows) == History(l, nows[0], nows)
  {
    var n := |nows| - 1;
    if n == 0 {
      assert nows[..0] == [];
    } else {
      ScriptLogIsHistory(l, nows[..n]);
    }
    ScriptIsBucketStep(l, Kept(l, nows[..n]), nows[n]);
  }

  lemma LogWindow(l: Limits, nows: seq<real>, i: nat, j: nat)
    requires i <= j < |nows|
    ensures var log := ScriptLog(l, nows);
      var h := History(l, nows[0], nows);
      && h[i + 1..j + 2] == log[i..j + 1] && h[j + 1] == log[j]
      && h[i + 1].at == nows[i] && h[j + 1].at == nows[j]
  {
    var log := ScriptLog(l, nows);
    ScriptLogIsHistory(l, nows);
    assert ([Event(nows[0], false)] + log)[i + 1..j + 2] == log[i..j + 1];
  }

  /** Between expiries, and whatever clocks the callers have, even ones that run
      backwards: from run `i` to an admitted run `j` at most burst + rate * (now_j - now_i)
      requests are admitted. */
  lemma SkewedRunsAreBounded(l: Limits, nows: seq<real>, i: nat, j: nat)
    requires i <= j < |nows| && ScriptLog(l, nows)[j].admitted
    ensures Admitted(ScriptLog(l, nows)[i..j + 1]) as real <= l.burst + Refill(l, nows[i], nows[j])
  {
    LogWindow(l, nows, i, j);
    AdmissionFitsItsWindow(l, nows[0], nows, i + 1, j + 1);
  }

  /** The clock a caller sends: whole seconds. */
  function Unix(t: real): real {
    t.Floor as real
  }

  lemma UnixRoundsDown(s: real, t: real)
    ensures Unix(t) <= t < Unix(t) + 1.0
    ensures Unix(s) <= s < Unix(s) + 1.0
    ensures s <= t ==> Unix(s) <= Unix(t)
  {
    FloorBounds(s);
    FloorBounds(t);
    if s <= t {
      FloorIsMonotone(s, t);
    }
  }

  lemma FloorBounds(t: real)
    ensures t.Floor as real <= t < t.Floor as real + 1.0
  {
  }

  lemma FloorIsMonotone(s: real, t: real)
    requires s <= t
    ensures s.Floor <= t.Floor
  {
    FloorBounds(s);
    FloorBounds(t);
  }

  /** What Redis is sent when a clock reads `times`. */
  function Sent(times: seq<real>): (nows: seq<real>)
    ensures |nows| == |times|
    ensures forall k | 0 <= k < |times| :: nows[k] == Unix(times[k])
  {
    seq(|times|, k requires 0 <= k < |times| => Unix(times[k]))
  }

  function Abs(x: real): real {
    if x < 0.0 then -x else x
  }

  lemma RefillOfNearSpan(l: Limits, a: real, b: real, c: real, d: real)
    requires -1.0 <= (b - a) - (d - c) <= 1.0
    ensures Refill(l, a, b) <= Refill(l, c, d) + Abs(l.rate)
  {
    var slack := (b - a) - (d - c);
    assert Refill(l, a, b) == Refill(l, c, d) + slack * l.rate;
    WithinAbs(slack, l.rate);
  }

  lemma WithinAbs(x: real, y: real)
    requires -1.0 <= x <= 1.0
    ensures x * y <= Abs(y)
  {
    if y >= 0.0 {
      assert (1.0 - x) * y >= 0.0;
    } else {
      assert (1.0 + x) * (-y) >= 0.0;
    }
  }

  /** On one clock, whose readings are sent as whole seconds, from any run to any admitted
      run there are at most burst + rate * (real time) + |rate| admissions: for a rate that
      is not negative, those of one second more. */
  lemma WholeSecondsAreBounded(l: Limits, times: seq<real>, i: nat, j: nat)
    requires i <= j < |times| && ScriptLog(l, Sent(times))[j].admitted
    ensures Admitted(ScriptLog(l, Sent(times))[i..j + 1]) as real
         <= l.burst + Refill(l, times[i], times[j]) + Abs(l.rate)
  {
    SkewedRunsAreBounded(l, Sent(times), i, j);
    UnixRoundsDown(times[i], times[j]);
    RefillOfNearSpan(l, Unix(times[i]), Unix(times[j]), times[i], times[j]);
  }

  // ----- the extra second is needed

  predicate Ascending(times: seq<real>) {
    forall i, j | 0 <= i <= j < |times| :: times[i] <= times[j]
  }

  /** On every clock that does not run backwards, burst + rate * (real time) bounds the
      admissions from any run to any admitted run. */
  ghost predicate NoExtraSecond(l: Limits) {
    forall times: seq<real>, i: nat, j: nat
      | Ascending(times) && i <= j < |times| && ScriptLog(l, Sent(times))[j].admitted ::
      WithinRealTime(l, times, i, j)
  }

  predicate WithinRealTime(l: Limits, times: seq<real>, i: nat, j: nat)
    requires i <= j < |times|
  {
    Admitted(ScriptLog(l, Sent(times))[i..j + 1]) as real <= l.burst + Refill(l, times[i], times[j])
  }

  /** `n` runs in second 0, each admitted. */
  lemma {:induction false} SecondIsDrained(l: Limits, late: real, n: nat)
    requires 0.0 <= late < 1.0 && n as real <= l.burst
    ensures var nows := Sent(seq(n, _ => late));
      && (n > 0 ==> Kept(l, nows) == Some(Bucket(l.burst - n as real, 0.0)))
      && Admitted(ScriptLog(l, nows)) == n
  {
    if n > 0 {
      var nows := Sent(seq(n, _ => late));
      FloorBounds(late);
      assert nows[..n - 1] == Sent(seq(n - 1, _ => late));
      SecondIsDrained(l, late, n - 1);
      NoRefillAtOnce(l, 0.0);
      var log := ScriptLog(l, nows);
      assert log[..n - 1] == ScriptLog(l, nows[..n - 1]);
    }
  }

  /** An instant late in second 0 and the first whole second at which `missing` tokens have
      accrued since second 0; between the two there is time for fewer. */
  lemma Accrual(l: Limits, missing: real) returns (late: real, second: nat)
    requires l.rate > 0.0 && 0.0 < missing
    ensures 0.0 <= late < 1.0 <= second as real
    ensures Refill(l, late, second as real) < missing <= Refill(l, 0.0, second as real)
  {
    var needed := missing / l.rate;
    assert Refill(l, 0.0, needed) == missing;
    RefillIsStrict(l, 0.0, needed);
    FloorBounds(needed);
    second := if needed.Floor as real == needed then needed.Floor else needed.Floor + 1;
    var before := (second - 1) as real;
    RefillIsMonotone(l, 0.0, needed, second as real);
    RefillIsStrict(l, before, needed);
    RefillSplits(l, 0.0, before, needed);
    var gap := missing - Refill(l, 0.0, before);
    var early := gap / 2.0 / l.rate;
    assert Refill(l, 0.0, early) == gap / 2.0;
    RefillIsStrict(l, 0.0, early);
    late := if early < 1.0 then 1.0 - early else 0.0;
    RefillSplits(l, late, 1.0, second as real);
    RefillOfLongerSpan(l, late, 1.0, 0.0, early);
    RefillOfLongerSpan(l, 1.0, second as real, 0.0, before);
  }

  /** Drain the bucket late in one second, and come back in the second in which one more
      token has accrued: one admission more than real time allows. */
  lemma OneTooMany(l: Limits) returns (times: seq<real>)
    requires l.rate > 0.0 && l.burst >= 1.0
    ensures Ascending(times) && |times| > 0 && ScriptLog(l, Sent(times))[|times| - 1].admitted
    ensures !WithinRealTime(l, times, 0, |times| - 1)
  {
    var n := l.burst.Floor;
    FloorBounds(l.burst);
    var late, second := Accrual(l, 1.0 - (l.burst - n as real));
    var drain := seq(n, _ => late);
    times := drain + [second as real];
    SecondIsDrained(l, late, n);
    var nows := Sent(times);
    assert nows[..n] == Sent(drain);
    assert nows[n] == second as real;
    var log := ScriptLog(l, nows);
    assert log[..n] == ScriptLog(l, nows[..n]);
    assert log[n].admitted;
    assert log[0..n + 1] == log;
    assert Admitted(log) == n + 1;
  }

  // ----- and with a negative rate

  /** A run at instant 0 and `n` more at a later instant, all admitted; in between, tokens are
      lost. */
  lemma {:induction false} LeftoverIsDrained(l: Limits, instant: real, n: nat)
    requires l.rate < 0.0 && l.burst >= 1.0 && 0.0 <= instant
    requires n as real <= l.burst - 1.0 + Refill(l, 0.0, Unix(instant))
    ensures var nows := Sent([0.0] + seq(n, _ => instant));
      && Kept(l, nows).Some?
      && (n > 0 ==> Kept(l, nows).value
                    == Bucket(l.burst - 1.0 + Refill(l, 0.0, Unix(instant)) - n as real, Unix(instant)))
      && (n == 0 ==> Kept(l, nows).value == Bucket(l.burst - 1.0, 0.0))
      && ScriptLog(l, nows)[n].admitted && Admitted(ScriptLog(l, nows)) == n + 1
  {
    var times := [0.0] + seq(n, _ => instant);
    var nows := Sent(times);
    UnixRoundsDown(0.0, instant);
    NoRefillAtOnce(l, 0.0);
    NoRefillAtOnce(l, Unix(instant));
    RefillLoses(l, 0.0, Unix(instant));
    assert times[..n] == if n == 0 then [] else [0.0] + seq(n - 1, _ => instant);
    var log := ScriptLog(l, nows);
    assert log[..n] == ScriptLog(l, nows[..n]);
    if n == 0 {
      assert nows[..0] == [];
      assert nows[0] == 0.0;
    } else {
      assert nows[..n] == Sent([0.0] + seq(n - 1, _ => instant));
      LeftoverIsDrained(l, instant, n - 1);
      assert nows[n] == Unix(instant);
    }
  }

  lemma RefillLoses(l: Limits, a: real, b: real)
    requires l.rate <= 0.0 && a <= b
    ensures Refill(l, a, b) <= 0.0
  {
    assert (b - a) * -l.rate >= 0.0;
  }

  /** The second by whose end at most `fraction` tokens are lost, and an instant late in it by
      which more would be. */
  lemma Decay(l: Limits, fraction: real) returns (second: nat, late: real)
    requires l.rate < 0.0 && 0.0 <= fraction
    ensures 0.0 <= late < 1.0
    ensures Refill(l, 0.0, second as real + late) < -fraction <= Refill(l, 0.0, second as real)
  {
    var lasts := fraction / -l.rate;
    FloorBounds(lasts);
    second := lasts.Floor;
    late := (lasts - second as real + 1.0) / 2.0;
    DecayCosts(l, lasts, second as real, fraction);
    DecayCosts(l, lasts, second as real + late, fraction);
  }

  lemma DecayCosts(l: Limits, lasts: real, instant: real, fraction: real)
    requires l.rate < 0.0 && lasts == fraction / -l.rate
    ensures instant <= lasts ==> -fraction <= Refill(l, 0.0, instant)
    ensures lasts < instant ==> Refill(l, 0.0, instant) < -fraction
  {
    assert lasts * -l.rate == fraction;
    assert Refill(l, 0.0, instant) == -(instant * -l.rate);
    if instant <= lasts {
      LongerCosts(instant, lasts, -l.rate);
    } else {
      LongerCosts(lasts, instant, -l.rate);
    }
  }

  lemma LongerCosts(a: real, b: real, rate: real)
    requires a <= b && rate > 0.0
    ensures a * rate <= b * rate && (a < b ==> a * rate < b * rate)
  {
    assert (b - a) * rate >= 0.0;
    if a < b {
      ProductIsPositive(b - a, rate);
    }
  }

  /** An instant with `n` tokens left after one was taken, when the plain bound is below n + 1. */
  lemma LossInstant(l: Limits) returns (n: nat, instant: real)
    requires l.rate < 0.0 && l.burst >= 2.0
    ensures n >= 1 && instant >= 0.0
    ensures n as real <= l.burst - 1.0 + Refill(l, 0.0, Unix(instant))
    ensures l.burst + Refill(l, 0.0, instant) < n as real + 1.0
  {
    FloorBounds(l.burst);
    var second, late := Decay(l, l.burst - l.burst.Floor as real);
    instant := second as real + late;
    FloorIs(instant, second);
    n := l.burst.Floor - 1;
  }

  /** With a negative rate and a burst of at least two: run once, and come back late in the
      second in which the bucket has lost its fraction of a token. */
  lemma OneTooManyOfLoss(l: Limits) returns (times: seq<real>)
    requires l.rate < 0.0 && l.burst >= 2.0
    ensures Ascending(times) && |times| > 0 && ScriptLog(l, Sent(times))[|times| - 1].admitted
    ensures !WithinRealTime(l, times, 0, |times| - 1)
  {
    var n, instant := LossInstant(l);
    LeftoverIsDrained(l, instant, n);
    times := [0.0] + seq(n, _ => instant);
    var log := ScriptLog(l, Sent(times));
    assert log[0..n + 1] == log;
  }

  lemma FloorIs(t: real, n: int)
    requires n as real <= t < n as real + 1.0
    ensures t.Floor == n
  {
    FloorBounds(t);
  }

  /** With a negative rate and a burst below two only the first run is admitted. */
  lemma {:induction false} OnlyFirstAdmitted(l: Limits, nows: seq<real>)
    requires l.rate < 0.0 && l.burst < 2.0 && nows != [] && Ascending(nows)
    ensures Kept(l, nows).Some? && Kept(l, nows).value.tokens < 1.0
    ensures Kept(l, nows).value.last == nows[|nows| - 1]
    ensures forall j | 1 <= j < |nows| :: !ScriptLog(l, nows)[j].admitted
  {
    var n := |nows| - 1;
    var past := nows[..n];
    var log := ScriptLog(l, nows);
    assert log[..n] == ScriptLog(l, past);
    if n == 0 {
      NoRefillAtOnce(l, nows[0]);
    } else {
      OnlyFirstAdmitted(l, past);
      RefillLoses(l, nows[n - 1], nows[n]);
      forall j | 1 <= j < |nows|
        ensures !log[j].admitted
      {
        if j < n {
          assert log[..n][j] == log[j];
        }
      }
    }
  }

  lemma SentAscends(times: seq<real>)
    requires Ascending(times)
    ensures Ascending(Sent(times))
  {
    forall i, j | 0 <= i <= j < |times|
      ensures Sent(times)[i] <= Sent(times)[j]
    {
      UnixRoundsDown(times[i], times[j]);
    }
  }

  // ----- settled

  /** The plain bound holds if and only if nothing accrues, nothing is admitted, or nothing
      but the first run is. */
  lemma NoExtraSecondExactlyWhen(l: Limits)
    ensures NoExtraSecond(l) <==> l.rate == 0.0 || l.burst < 1.0 || (l.rate < 0.0 && l.burst < 2.0)
  {
    if l.rate > 0.0 && l.burst >= 1.0 {
      var times := OneTooMany(l);
      assert !WithinRealTime(l, times, 0, |times| - 1);
    } else if l.rate < 0.0 && l.burst >= 2.0 {
      var times := OneTooManyOfLoss(l);
      assert !WithinRealTime(l, times, 0, |times| - 1);
    } else {
      forall times: seq<real>, i: nat, j: nat
        | Ascending(times) && i <= j < |times| && ScriptLog(l, Sent(times))[j].admitted
        ensures WithinRealTime(l, times, i, j)
      {
        PlainBoundHolds(l, times, i, j);
      }
    }
  }

  lemma PlainBoundHolds(l: Limits, times: seq<real>, i: nat, j: nat)
    requires l.rate == 0.0 || l.burst < 1.0 || (l.rate < 0.0 && l.burst < 2.0)
    requires Ascending(times) && i <= j < |times| && ScriptLog(l, Sent(times))[j].admitted
    ensures WithinRealTime(l, times, i, j)
  {
    if l.burst < 1.0 {
      NothingAdmitted(l, Sent(times), j);
    } else {
      if l.rate < 0.0 {
        SentAscends(times);
        OnlyFirstAdmitted(l, Sent(times));
        NoRefillAtOnce(l, times[0]);
        NoRefillAtOnce(l, Unix(times[0]));
      }
      SkewedRunsAreBounded(l, Sent(times), i, j);
    }
  }

  lemma {:induction false} NothingAdmitted(l: Limits, nows: seq<real>, j: nat)
    requires l.burst < 1.0 && j < |nows|
    ensures !ScriptLog(l, nows)[j].admitted
  {
    if j < |nows| - 1 {
      NothingAdmitted(l, nows[..|nows| - 1], j);
    }
  }

  /** For instance: one request a second, a burst of one, two admitted in a quarter second. */
  lemma TwoInAQuarterSecond()
    ensures var l := Limits(1.0, 1.0);
      var times := [0.75, 1.0];
      && Admitted(ScriptLog(l, Sent(times))) == 2 && l.burst + Refill(l, times[0], times[1]) == 1.25
  {
    var l := Limits(1.0, 1.0);
    var nows := Sent([0.75, 1.0]);
    FloorBounds(1.0);
    SecondIsDrained(l, 0.75, 1);
    assert nows[..1] == Sent(seq(1, _ => 0.75));
    assert nows[1] == 1.0;
    var log := ScriptLog(l, nows);
    assert log[..1] == ScriptLog(l, nows[..1]);
    assert log[1].admitted;
  }

  // ----- the breaker

  datatype Breaker = Breaker(failures: nat, lastFailure: real, circuitOpen: bool)

  /** A locked step of the breaker. */
  datatype Outcome = Failed(at: real) | Succeeded

  predicate IsOpen(resetTimeout: real, b: Breaker, now: real) {
    b.circuitOpen && now - b.lastFailure <= resetTimeout
  }

  function Record(threshold: int, b: Breaker, o: Outcome): Breaker {
    match o
    case Failed(at) => Breaker(b.failures + 1, at, b.circuitOpen || b.failures + 1 >= threshold)
    case Succeeded => Breaker(0, b.lastFailure, false)
  }

  const CLOSED := Breaker(0, 0.0, false)

  function Recorded(threshold: int, os: seq<Outcome>): Breaker {
    if os == [] then CLOSED else Record(threshold, Recorded(threshold, os[..|os| - 1]), os[|os| - 1])
  }

  /** The last `n` outcomes are all failures. */
  predicate TrailingFailures(os: seq<Outcome>, n: int) {
    n <= |os| && forall i | 0 <= i < |os| && |os| - n <= i :: os[i].Failed?
  }

  /** Over any run of the locked steps, from any callers in any order, the circuit is
      open exactly when the run ends in at least `threshold` failures. */
  lemma {:induction false} OpenIffThresholdReached(threshold: int, os: seq<Outcome>)
    requires threshold >= 1
    ensures Recorded(threshold, os).circuitOpen <==> TrailingFailures(os, threshold)
    ensures forall n | n >= 0 :: Recorded(threshold, os).failures >= n <==> TrailingFailures(os, n)
  {
    if os != [] {
      var past := os[..|os| - 1];
      OpenIffThresholdReached(threshold, past);
      forall n | n >= 0
        ensures Recorded(threshold, os).failures >= n <==> TrailingFailures(os, n)
      {
        if n >= 1 {
          assert TrailingFailures(os, n) <==> os[|os| - 1].Failed? && TrailingFailures(past, n - 1);
        }
      }
    }
  }

  /** A call during an outage: when it asks the breaker, and when its failure is recorded. */
  datatype Attempt = Attempt(asked: real, failed: real)

  function AfterOutage(threshold: int, reset: real, b: Breaker, calls: seq<Attempt>): Breaker {
    if calls == [] then b
    else
      var n := |calls| - 1;
      var before := AfterOutage(threshold, reset, b, calls[..n]);
      if IsOpen(reset, before, calls[n].asked) then before else Record(threshold, before, Failed(calls[n].failed))
  }

  /** How many of the calls reach Redis. */
  function Reaching(threshold: int, reset: real, b: Breaker, calls: seq<Attempt>): nat {
    if calls == [] then 0
    else
      var n := |calls| - 1;
      Reaching(threshold, reset, b, calls[..n])
      + if IsOpen(reset, AfterOutage(threshold, reset, b, calls[..n]), calls[n].asked) then 0 else 1
  }

  predicate OneAtATime(start: real, calls: seq<Attempt>) {
    calls == [] ||
    (var n := |calls| - 1;
     && OneAtATime(start, calls[..n])
     && (if n == 0 then start else calls[n - 1].failed) <= calls[n].asked <= calls[n].failed)
  }

  /** The state every breaker reaches: open exactly from `threshold` failures on. */
  predicate Consistent(threshold: int, b: Breaker) {
    b.circuitOpen <==> b.failures >= threshold
  }

  /** After `threshold` attempts every further one waits for the reset timeout. */
  lemma {:induction false} AttemptsAreSpaced(threshold: int, reset: real, b: Breaker, start: real, calls: seq<Attempt>)
    requires threshold >= 1 && reset > 0.0 && Consistent(threshold, b) && OneAtATime(start, calls)
    ensures var n := Reaching(threshold, reset, b, calls);
      var a := AfterOutage(threshold, reset, b, calls);
      && Consistent(threshold, a) && a.failures == b.failures + n
      && (n >= 1 ==> start <= a.lastFailure <= calls[|calls| - 1].failed)
      && (n > threshold ==> start + Shares(n - threshold, reset) < a.lastFailure)
    ensures calls != [] ==> start <= calls[|calls| - 1].failed
  {
    if calls != [] {
      AttemptsAreSpaced(threshold, reset, b, start, calls[..|calls| - 1]);
    }
  }

  /** In a sequential outage of length `t` at most threshold + floor(t / resetTimeout)
      calls reach Redis; the others go straight to the fallback. */
  lemma OutageIsBounded(threshold: int, reset: real, b: Breaker, start: real, calls: seq<Attempt>, t: real)
    requires threshold >= 1 && reset > 0.0 && t >= 0.0 && Consistent(threshold, b) && OneAtATime(start, calls)
    requires calls != [] ==> calls[|calls| - 1].failed <= start + t
    ensures Reaching(threshold, reset, b, calls) <= threshold + (t / reset).Floor
  {
    AttemptsAreSpaced(threshold, reset, b, start, calls);
    var n := Reaching(threshold, reset, b, calls);
    FitsInto(if n > threshold then n - threshold else 0, reset, t);
  }

  /** A call that comes before `threshold` failures, or more than a reset timeout after the
      last one, is tried, and its failure recorded; any other leaves the breaker alone. */
  lemma TriedExactlyWhen(threshold: int, reset: real, b: Breaker, calls: seq<Attempt>, call: Attempt)
    requires Consistent(threshold, AfterOutage(threshold, reset, b, calls))
    ensures var before := AfterOutage(threshold, reset, b, calls);
      var after := AfterOutage(threshold, reset, b, calls + [call]);
      var tries := Reaching(threshold, reset, b, calls + [call]) - Reaching(threshold, reset, b, calls);
      if before.failures < threshold || call.asked - before.lastFailure > reset then
        tries == 1 && after == Breaker(before.failures + 1, call.failed, before.failures + 1 >= threshold)
      else tries == 0 && after == before
  {
    assert (calls + [call])[..|calls|] == calls;
  }

  /** Recovery is always probed: in an outage with more than a reset timeout between one
      failure and the next call, every call reaches Redis. */
  lemma {:induction false} SpacedCallsAreTried(threshold: int, reset: real, b: Breaker, start: real,
                                               calls: seq<Attempt>)
    requires threshold >= 1 && reset > 0.0 && Consistent(threshold, b) && OneAtATime(start, calls)
    requires calls != [] ==> calls[0].asked - b.lastFailure > reset
    requires forall i | 0 < i < |calls| :: calls[i].asked - calls[i - 1].failed > reset
    ensures Reaching(threshold, reset, b, calls) == |calls|
    ensures calls != [] ==> AfterOutage(threshold, reset, b, calls).lastFailure == calls[|calls| - 1].failed
  {
    if calls != [] {
      var n := |calls| - 1;
      var past := calls[..n];
      SpacedCallsAreTried(threshold, reset, b, start, past);
      AttemptsAreSpaced(threshold, reset, b, start, past);
      assert calls == past + [calls[n]];
      TriedExactlyWhen(threshold, reset, b, past, calls[n]);
    }
  }

  lemma FitsInto(n: nat, each: real, total: real)
    requires each > 0.0 && Shares(n, each) <= total
    ensures n <= (total / each).Floor
  {
    SharesIsProduct(n, each);
    var q := total / each;
    assert q * each == total;
    assert n as real <= q by {
      assert (q - n as real) * each >= 0.0;
    }
    FloorIsMonotone(n as real, q);
  }
}
