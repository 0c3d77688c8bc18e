/** The lazily refilled token bucket of `RateLimiter`.

    Two views of the same limiter are related here. The fast one is what the code
    keeps: a token count and the instant of the last refill. The slow one is what a
    rate limit means: the whole history of calls, and for every past instant a bound
    on how many calls may have been admitted since. `Represents` ties the two, and
    holds of every run without any assumption on the clock, the rate or the burst.
    Instants and token counts are reals. */
module TokenBucket {
  import opened Wrappers

  /** `maxTokens` and `refillRate`. */
  datatype Limits = Limits(burst: real, rate: real)

  datatype Bucket = Bucket(tokens: real, last: real)

  /** One clock reading of a limiter: its creation (never an admission) or a call. */
  datatype Event = Event(at: real, admitted: bool)

  // ----- the fast form: what the code computes

  /** Tokens that accrue between two instants; negative when the clock went back. */
  function Refill(l: Limits, from: real, to: real): real {
    (to - from) * l.rate
  }

  lemma RefillSplits(l: Limits, a: real, b: real, c: real)
    ensures Refill(l, a, c) == Refill(l, a, b) + Refill(l, b, c)
  {
    assert (c - a) * l.rate == (b - a) * l.rate + (c - b) * l.rate;
  }

  lemma NoRefillAtOnce(l: Limits, a: real)
    ensures Refill(l, a, a) == 0.0
  {
  }

  lemma RefillIsMonotone(l: Limits, a: real, b: real, c: real)
    requires l.rate >= 0.0 && b <= c
    ensures Refill(l, a, b) <= Refill(l, a, c)
    ensures Refill(l, b, c) >= 0.0
  {
    assert (c - b) * l.rate >= 0.0;
    RefillSplits(l, a, b, c);
  }

  lemma RefillOfLongerSpan(l: Limits, a: real, b: real, c: real, d: real)
    requires l.rate >= 0.0 && b - a <= d - c
    ensures Refill(l, a, b) <= Refill(l, c, d)
  {
    assert (b - a) * l.rate <= (d - c) * l.rate;
  }

  lemma ProductIsPositive(x: real, y: real)
    requires x > 0.0 && y > 0.0
    ensures x * y > 0.0
  {
  }

  lemma RefillIsStrict(l: Limits, a: real, b: real)
    requires l.rate > 0.0
    ensures a < b <==> Refill(l, a, b) > 0.0
  {
    var span, rate := b - a, l.rate;
    assert Refill(l, a, b) == span * rate;
    if a < b {
      ProductIsPositive(span, rate);
    } else {
      RefillIsMonotone(l, b, b, a);
      RefillSplits(l, b, a, b);
      NoRefillAtOnce(l, b);
    }
  }

  /** The token count after the lazy refill at `now`. */
  function Level(l: Limits, b: Bucket, now: real): real {
    var refilled := b.tokens + Refill(l, b.last, now);
    if refilled > l.burst then l.burst else refilled
  }

  predicate Admits(l: Limits, b: Bucket, now: real) {
    Level(l, b, now) >= 1.0
  }

  function Step(l: Limits, b: Bucket, now: real): Bucket {
    Bucket(if Admits(l, b, now) then Level(l, b, now) - 1.0 else Level(l, b, now), now)
  }

  function Created(l: Limits, now: real): Bucket {
    Bucket(l.burst, now)
  }

  // ----- the slow form: windows over the history

  function Admitted(h: seq<Event>): nat {
    if h == [] then 0 else Admitted(h[..|h| - 1]) + if h[|h| - 1].admitted then 1 else 0
  }

  /** How many more calls the window from event `k` to `now` has room for. */
  function Slack(l: Limits, h: seq<Event>, k: nat, now: real): real
    requires k < |h|
  {
    l.burst + Refill(l, h[k].at, now) - Admitted(h[k..]) as real
  }

  /** One more admission at `now` keeps every window that ends at `now` within
      burst + rate * length, the empty window included. */
  ghost predicate Fits(l: Limits, h: seq<Event>, now: real) {
    && 1.0 <= l.burst
    && forall k | 0 <= k < |h| :: 1.0 <= Slack(l, h, k, now)
  }

  /** Every window that ends with an admission is within its bound. */
  ghost predicate Compliant(l: Limits, h: seq<Event>) {
    forall i, j | 0 <= i <= j < |h| && h[j].admitted ::
      Admitted(h[i..j + 1]) as real <= l.burst + Refill(l, h[i].at, h[j].at)
  }

  /** The bucket holds exactly the least slack over all windows of the history. */
  ghost predicate Represents(l: Limits, b: Bucket, h: seq<Event>) {
    && |h| > 0
    && b.last == h[|h| - 1].at
    && (forall k | 0 <= k < |h| :: b.tokens <= Slack(l, h, k, b.last))
    && (exists k | 0 <= k < |h| :: b.tokens == Slack(l, h, k, b.last))
  }

  // ----- the two forms agree

  lemma SlackGrows(l: Limits, h: seq<Event>, k: nat, t: real, now: real)
    requires k < |h|
    ensures Slack(l, h, k, now) == Slack(l, h, k, t) + Refill(l, t, now)
  {
    RefillSplits(l, h[k].at, t, now);
  }

  /** The refilled token count is the minimum over all past window starts. */
  lemma LevelIsLeastSlack(l: Limits, b: Bucket, h: seq<Event>, now: real)
    requires Represents(l, b, h)
    ensures Level(l, b, now) <= l.burst
    ensures forall k | 0 <= k < |h| :: Level(l, b, now) <= Slack(l, h, k, now)
    ensures Level(l, b, now) == l.burst || exists k | 0 <= k < |h| :: Level(l, b, now) == Slack(l, h, k, now)
  {
    forall k | 0 <= k < |h|
      ensures Slack(l, h, k, now) == Slack(l, h, k, b.last) + Refill(l, b.last, now)
    {
      SlackGrows(l, h, k, b.last, now);
    }
    var k :| 0 <= k < |h| && b.tokens == Slack(l, h, k, b.last);
    assert Slack(l, h, k, now) == b.tokens + Refill(l, b.last, now);
  }

  /** `Allow` admits exactly when one more admission fits every window. */
  lemma AdmitsIffFits(l: Limits, b: Bucket, h: seq<Event>, now: real)
    requires Represents(l, b, h)
    ensures Admits(l, b, now) <==> Fits(l, h, now)
  {
    LevelIsLeastSlack(l, b, h, now);
  }

  lemma AdmittedSnoc(h: seq<Event>, e: Event, k: nat)
    requires k <= |h|
    ensures Admitted((h + [e])[k..]) == Admitted(h[k..]) + if e.admitted then 1 else 0
  {
    assert (h + [e])[k..] == h[k..] + [e];
    assert (h[k..] + [e])[..|h[k..]|] == h[k..];
  }

  lemma StepRepresents(l: Limits, b: Bucket, h: seq<Event>, now: real)
    requires Represents(l, b, h)
    ensures Represents(l, Step(l, b, now), h + [Event(now, Admits(l, b, now))])
  {
    LevelIsLeastSlack(l, b, h, now);
    var e := Event(now, Admits(l, b, now));
    var h' := h + [e];
    var b' := Step(l, b, now);
    var spent := if e.admitted then 1.0 else 0.0;
    AdmittedSnoc(h, e, |h|);
    assert h[|h|..] == [];
    NoRefillAtOnce(l, now);
    assert Slack(l, h', |h|, now) == l.burst - spent;
    forall k | 0 <= k < |h|
      ensures Slack(l, h', k, now) == Slack(l, h, k, now) - spent
    {
      AdmittedSnoc(h, e, k);
    }
    if Level(l, b, now) == l.burst {
      assert b'.tokens == Slack(l, h', |h|, now);
    } else {
      var k :| 0 <= k < |h| && Level(l, b, now) == Slack(l, h, k, now);
      assert b'.tokens == Slack(l, h', k, now);
    }
  }

  // ----- whole runs

  function After(l: Limits, born: real, ts: seq<real>): Bucket {
    if ts == [] then Created(l, born)
    else Step(l, After(l, born, ts[..|ts| - 1]), ts[|ts| - 1])
  }

  /** The history of a limiter created at `born` and called at `ts`. */
  function History(l: Limits, born: real, ts: seq<real>): (h: seq<Event>)
    ensures |h| == |ts| + 1
    ensures !h[0].admitted
    ensures forall i | 0 <= i < |h| :: h[i].at == ([born] + ts)[i]
  {
    if ts == [] then [Event(born, false)]
    else
      var before := ts[..|ts| - 1];
      var now := ts[|ts| - 1];
      History(l, born, before) + [Event(now, Admits(l, After(l, born, before), now))]
  }

  lemma {:induction false} HistoryPrefix(l: Limits, born: real, ts: seq<real>, n: nat)
    requires n <= |ts|
    ensures History(l, born, ts)[..n + 1] == History(l, born, ts[..n])
  {
    if n == |ts| {
      assert ts[..n] == ts;
    } else {
      HistoryPrefix(l, born, ts[..|ts| - 1], n);
      assert ts[..|ts| - 1][..n] == ts[..n];
    }
  }

  lemma CreatedRepresents(l: Limits, born: real)
    ensures Represents(l, Created(l, born), [Event(born, false)])
  {
    var h := [Event(born, false)];
    assert h[0..] == h && h[..|h| - 1] == [];
    assert Admitted(h) == 0;
    NoRefillAtOnce(l, born);
    assert Slack(l, h, 0, born) == l.burst;
  }

  lemma {:induction false} RunRepresents(l: Limits, born: real, ts: seq<real>)
    ensures Represents(l, After(l, born, ts), History(l, born, ts))
  {
    if ts == [] {
      CreatedRepresents(l, born);
    } else {
      var before := ts[..|ts| - 1];
      RunRepresents(l, born, before);
      StepRepresents(l, After(l, born, before), History(l, born, before), ts[|ts| - 1]);
    }
  }

  /** Exactness over a whole run: call `n` is admitted if and only if admitting it
      keeps every window ending at that call within its bound. */
  lemma RunIsExact(l: Limits, born: real, ts: seq<real>, n: nat)
    requires n < |ts|
    ensures History(l, born, ts)[n + 1].admitted <==> Fits(l, History(l, born, ts[..n]), ts[n])
  {
    HistoryPrefix(l, born, ts, n + 1);
    assert ts[..n + 1][..n] == ts[..n];
    RunRepresents(l, born, ts[..n]);
    AdmitsIffFits(l, After(l, born, ts[..n]), History(l, born, ts[..n]), ts[n]);
  }

  lemma PrefixThenWindow(h: seq<Event>, i: nat, j: nat)
    requires i <= j < |h|
    ensures h[..j][i..] == h[i..j]
    ensures Admitted(h[i..j + 1]) == Admitted(h[i..j]) + if h[j].admitted then 1 else 0
  {
    assert h[i..j + 1][..j - i] == h[i..j];
  }

  lemma AdmissionFitsItsWindow(l: Limits, born: real, ts: seq<real>, i: nat, j: nat)
    requires i <= j <= |ts| && History(l, born, ts)[j].admitted
    ensures var h := History(l, born, ts);
      Admitted(h[i..j + 1]) as real <= l.burst + Refill(l, h[i].at, h[j].at)
  {
    var h := History(l, born, ts);
    RunIsExact(l, born, ts, j - 1);
    HistoryPrefix(l, born, ts, j - 1);
    PrefixThenWindow(h, i, j);
    if i < j {
      assert 1.0 <= Slack(l, h[..j], i, h[j].at);
    } else {
      assert h[i..j] == [];
      NoRefillAtOnce(l, h[j].at);
    }
  }

  /** Every window of every run that ends with an admission obeys the bound, for any
      clock readings whatever, decreasing ones included. */
  lemma RunIsCompliant(l: Limits, born: real, ts: seq<real>)
    ensures Compliant(l, History(l, born, ts))
  {
    var h := History(l, born, ts);
    forall i, j | 0 <= i <= j < |h| && h[j].admitted
      ensures Admitted(h[i..j + 1]) as real <= l.burst + Refill(l, h[i].at, h[j].at)
    {
      AdmissionFitsItsWindow(l, born, ts, i, j);
    }
  }

  lemma AdmittedSplit(h: seq<Event>, k: nat)
    requires k <= |h|
    ensures Admitted(h) == Admitted(h[..k]) + Admitted(h[k..])
  {
    if k == |h| {
      assert h[..k] == h;
      assert h[k..] == [];
    } else {
      AdmittedSplit(h[..|h| - 1], k);
      assert h[..|h| - 1][..k] == h[..k];
      assert h[k..][..|h[k..]| - 1] == h[..|h| - 1][k..];
    }
  }

  ghost predicate SameInstants(g: seq<Event>, h: seq<Event>) {
    |g| == |h| && forall i | 0 <= i < |g| :: g[i].at == h[i].at
  }

  /** Some window before `m` has more admissions in `h` than in `other`. */
  ghost predicate Overtakes(h: seq<Event>, other: seq<Event>, m: nat)
    requires m <= |h| == |other|
  {
    exists k | 0 <= k < m :: Admitted(other[k..m]) < Admitted(h[k..m])
  }

  /** Optimality: no policy that meets the window bounds on the same readings has
      admitted more calls than the bucket at any point of the run. */
  lemma RunIsOptimal(l: Limits, born: real, ts: seq<real>, other: seq<Event>, n: nat)
    requires SameInstants(other, History(l, born, ts))
    requires Compliant(l, other) && !other[0].admitted
    requires n <= |ts| + 1
    ensures Admitted(other[..n]) <= Admitted(History(l, born, ts)[..n])
  {
    var h := History(l, born, ts);
    forall m | 0 <= m < |h| && other[m].admitted && !h[m].admitted
      ensures Overtakes(h, other, m)
    {
      DenialIsOvertaking(l, born, ts, other, m);
    }
    NeverAhead(h, other, n);
  }

  lemma {:induction false} NeverAhead(h: seq<Event>, other: seq<Event>, n: nat)
    requires n <= |h| == |other|
    requires forall m | 0 <= m < |h| && other[m].admitted && !h[m].admitted :: Overtakes(h, other, m)
    ensures Admitted(other[..n]) <= Admitted(h[..n])
    decreases n
  {
    if n >= 1 {
      var m := n - 1;
      NeverAhead(h, other, m);
      assert h[..n][..m] == h[..m] && other[..n][..m] == other[..m];
      if other[m].admitted && !h[m].admitted {
        assert Overtakes(h, other, m);
        var k :| 0 <= k < m && Admitted(other[k..m]) < Admitted(h[k..m]);
        NeverAhead(h, other, k);
        CountsAdd(h, other, k, m);
      }
    }
  }

  lemma CountsAdd(h: seq<Event>, other: seq<Event>, k: nat, m: nat)
    requires k < m <= |h| == |other|
    requires Admitted(other[k..m]) < Admitted(h[k..m])
    requires Admitted(other[..k]) <= Admitted(h[..k])
    ensures Admitted(other[..m]) < Admitted(h[..m])
  {
    AdmittedSplit(h[..m], k);
    AdmittedSplit(other[..m], k);
    assert h[..m][..k] == h[..k] && other[..m][..k] == other[..k];
    assert h[..m][k..] == h[k..m] && other[..m][k..] == other[k..m];
  }

  /** Where the bucket denies a call that a compliant policy admits, the bucket has
      admitted more than that policy since some earlier instant. */
  lemma DenialIsOvertaking(l: Limits, born: real, ts: seq<real>, other: seq<Event>, m: nat)
    requires SameInstants(other, History(l, born, ts))
    requires Compliant(l, other) && !other[0].admitted
    requires m <= |ts| && other[m].admitted && !History(l, born, ts)[m].admitted
    ensures Overtakes(History(l, born, ts), other, m)
  {
    RunIsExact(l, born, ts, m - 1);
    HistoryPrefix(l, born, ts, m - 1);
    DenialWitness(l, History(l, born, ts), other, m);
  }

  /** A window that forbids admission in one history but not in another has more
      admissions in the first. */
  lemma DenialWitness(l: Limits, h: seq<Event>, other: seq<Event>, m: nat)
    requires SameInstants(other, h) && m < |h|
    requires Compliant(l, other) && other[m].admitted
    requires !Fits(l, h[..m], h[m].at)
    ensures Overtakes(h, other, m)
  {
    assert other[m..m + 1] == [other[m]];
    assert [other[m]][..0] == [];
    assert Admitted(other[m..m + 1]) == 1;
    var past := h[..m];
    var k :| 0 <= k < |past| && 1.0 > Slack(l, past, k, h[m].at);
    PrefixThenWindow(h, k, m);
    PrefixThenWindow(other, k, m);
    assert Admitted(other[k..m + 1]) as real <= l.burst + Refill(l, other[k].at, other[m].at);
  }

  /** With a non-negative rate and burst and a clock that does not run backwards the
      bound also holds of windows that end with a denied call. */
  lemma {:induction false} EveryWindowBounded(l: Limits, h: seq<Event>, i: nat, j: nat)
    requires l.burst >= 0.0 && l.rate >= 0.0
    requires Compliant(l, h) && i <= j < |h|
    requires forall a, b | 0 <= a < b < |h| :: h[a].at <= h[b].at
    ensures Admitted(h[i..j + 1]) as real <= l.burst + Refill(l, h[i].at, h[j].at)
    decreases j
  {
    PrefixThenWindow(h, i, j);
    RefillIsMonotone(l, h[i].at, h[i].at, h[j].at);
    if !h[j].admitted {
      if i == j {
        assert h[i..j] == [];
      } else {
        EveryWindowBounded(l, h, i, j - 1);
        RefillIsMonotone(l, h[i].at, h[j - 1].at, h[j].at);
      }
    }
  }

  /** The window that starts at creation adds nothing once the rate is non-negative
      and the first call is not before creation: it is implied by the others. */
  lemma CreationWindowIsImplied(l: Limits, h: seq<Event>, now: real)
    requires |h| >= 2 && !h[0].admitted && l.rate >= 0.0 && h[0].at <= h[1].at
    requires 1.0 <= l.burst && forall k | 1 <= k < |h| :: 1.0 <= Slack(l, h, k, now)
    ensures Fits(l, h, now)
  {
    AdmittedSplit(h, 1);
    assert h[..1] == [h[0]];
    assert [h[0]][..0] == [];
    assert Admitted([h[0]]) == 0;
    assert h[0..] == h;
    RefillSplits(l, h[0].at, h[1].at, now);
    RefillIsMonotone(l, h[0].at, h[0].at, h[1].at);
    assert 1.0 <= Slack(l, h, 1, now);
  }

  // ----- the level as a potential, for bounds over several buckets

  lemma LevelAdvances(l: Limits, b: Bucket, t: real, now: real)
    requires l.rate >= 0.0 && t <= now
    ensures Level(l, b, t) <= Level(l, b, now) <= Level(l, b, t) + Refill(l, t, now)
  {
    RefillSplits(l, b.last, t, now);
    RefillIsMonotone(l, t, t, now);
  }

  lemma LevelAfterStep(l: Limits, b: Bucket, now: real)
    ensures Level(l, Step(l, b, now), now) == Level(l, b, now) - if Admits(l, b, now) then 1.0 else 0.0
  {
    NoRefillAtOnce(l, now);
  }

  // ----- the limiter object

  class RateLimiter {
    var tokens: real
    const maxTokens: real
    const refillRate: real
    var lastRefill: real
    ghost const owner: Option<string>  // the key a keyed limiter made this bucket for

    ghost function Bounds(): Limits {
      Limits(maxTokens, refillRate)
    }

    ghost function View(): Bucket
      reads this
    {
      Bucket(tokens, lastRefill)
    }

    constructor (requestsPerSecond: int, burst: int, now: real, ghost owner: Option<string> := None)
      ensures this.owner == owner
      ensures Bounds() == Limits(burst as real, requestsPerSecond as real)
      ensures View() == Created(Bounds(), now)
      ensures Represents(Bounds(), View(), [Event(now, false)])
    {
      tokens, maxTokens := burst as real, burst as real;
      refillRate := requestsPerSecond as real;
      lastRefill := now;
      this.owner := owner;
      new;
      CreatedRepresents(Bounds(), now);
    }

    /** Whatever history the limiter represents, it admits exactly when one more
        admission fits that history, and then represents the longer one. */
    method Allow(now: real) returns (allowed: bool)
      modifies this
      ensures allowed <==> Admits(Bounds(), old(View()), now)
      ensures View() == Step(Bounds(), old(View()), now)
      ensures forall h | Represents(Bounds(), old(View()), h) ::
        (allowed <==> Fits(Bounds(), h, now)) && Represents(Bounds(), View(), h + [Event(now, allowed)])
    {
      ghost var was := View();
      var elapsed := now - lastRefill;
      assert elapsed * refillRate == Refill(Bounds(), was.last, now);
      tokens := tokens + elapsed * refillRate;
      if tokens > maxTokens {
        tokens := maxTokens;
      }
      lastRefill := now;
      if tokens >= 1.0 {
        tokens := tokens - 1.0;
        allowed := true;
      } else {
        allowed := false;
      }
      assert View() == Step(Bounds(), was, now);
      forall h | Represents(Bounds(), was, h)
        ensures allowed <==> Fits(Bounds(), h, now)
        ensures Represents(Bounds(), View(), h + [Event(now, allowed)])
      {
        AdmitsIffFits(Bounds(), was, h, now);
        StepRepresents(Bounds(), was, h, now);
      }
    }
  }
}
