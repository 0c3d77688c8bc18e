/** The gRPC interceptor chains and the preset order around them.

    A handler takes the state of the process and a request, and returns or panics; for a
    stream the request stands for the stream with its context. An interceptor is given the
    next handler and may call it any number of times, or not at all. Product interceptors,
    the breaker, the rate limiter and the handler are arbitrary functions here. */
module Interceptors {
  import opened Wrappers

  /** gRPC status codes by number. */
  type Code = nat

  const OK: Code := 0
  const INTERNAL: Code := 13

  /** A request with its context; payloads are numbered. */
  datatype Request = Request(id: string, traced: bool, payload: nat)

  /** How a handler ends. After `runtime.Goexit` nothing returns any more, but deferred
      functions run, and `recover` finds no panic. */
  datatype Result = Returned(response: Option<nat>, code: Code) | Panicked | Exited

  /** The code that is observed: that of the error variable, or Internal for a panic. */
  function CodeOf(result: Result): Code {
    match result
    case Returned(_, code) => code
    case Panicked => INTERNAL
    case Exited => OK
  }

  datatype Kind = Unary | Stream

  /** An observed RPC: full method name, kind and code. */
  datatype Observed = Observed(info: string, kind: Kind, code: Code)

  /** What `GRPCMetrics` holds, in short, and everything else. */
  datatype World = World(inFlight: int, observed: seq<Observed>, rest: nat)

  type Handler = (World, Request) -> (World, Result)

  /** The string is the full method name of the call. */
  type Interceptor = (World, Request, string, Handler) -> (World, Result)

  // ----- the chain

  function Wrap(interceptor: Interceptor, info: string, next: Handler): Handler {
    (w: World, r: Request) => interceptor(w, r, info, next)
  }

  function Chain(interceptors: seq<Option<Interceptor>>, info: string, handler: Handler): Handler {
    if interceptors == [] then handler
    else
      var next := Chain(interceptors[1..], info, handler);
      match interceptors[0]
      case None => next
      case Some(i) => Wrap(i, info, next)
  }

  /** `ChainUnaryInterceptors` and `ChainStreamInterceptors`, with their backward loop. */
  method ChainInterceptors(interceptors: seq<Option<Interceptor>>, info: string, handler: Handler)
    returns (chained: Handler)
    ensures chained == Chain(interceptors, info, handler)
  {
    chained := handler;
    var i := |interceptors|;
    while i > 0
      invariant 0 <= i <= |interceptors|
      invariant chained == Chain(interceptors[i..], info, handler)
    {
      i := i - 1;
      assert interceptors[i..][1..] == interceptors[i + 1..];
      if interceptors[i].Some? {
        chained := Wrap(interceptors[i].value, info, chained);
      }
    }
  }

  /** Chaining is composition: the first interceptors wrap whatever the others make. */
  lemma {:induction false} ChainIsComposition(a: seq<Option<Interceptor>>, b: seq<Option<Interceptor>>, info: string,
                                              handler: Handler)
    ensures Chain(a + b, info, handler) == Chain(a, info, Chain(b, info, handler))
  {
    if a == [] {
      assert a + b == b;
    } else {
      ChainIsComposition(a[1..], b, info, handler);
      assert (a + b)[1..] == a[1..] + b;
    }
  }

  function Present(interceptors: seq<Option<Interceptor>>): seq<Option<Interceptor>> {
    if interceptors == [] then []
    else (if interceptors[0].Some? then [interceptors[0]] else []) + Present(interceptors[1..])
  }

  /** Nil entries might as well not be there. */
  lemma {:induction false} NilsAreSkipped(interceptors: seq<Option<Interceptor>>, info: string, handler: Handler)
    ensures Chain(interceptors, info, handler) == Chain(Present(interceptors), info, handler)
  {
    if interceptors != [] {
      NilsAreSkipped(interceptors[1..], info, handler);
      if interceptors[0].Some? {
        assert Present(interceptors)[1..] == Present(interceptors[1..]);
      } else {
        assert Present(interceptors) == Present(interceptors[1..]);
      }
    }
  }

  // ----- the library's own interceptors

  /** `GRPCRequestIDUnary` and `GRPCRequestIDStream`; `newId` is the ID it would make up. */
  function RequestID(newId: string): Interceptor {
    (w: World, r: Request, info: string, next: Handler) => next(w, r.(id := if r.id != "" then r.id else newId))
  }

  /** `GRPCRecoveryUnary` and `GRPCRecoveryStream`: a panic becomes an Internal error. */
  function Recover(outcome: (World, Result)): (World, Result) {
    (outcome.0, if outcome.1.Panicked? then Returned(None, INTERNAL) else outcome.1)
  }

  function Recovery(): Interceptor {
    (w: World, r: Request, info: string, next: Handler) => Recover(next(w, r))
  }

  /** `GRPCTracingUnary` and `GRPCTracingStream`, as far as the request goes. */
  function Tracing(): Interceptor {
    (w: World, r: Request, info: string, next: Handler) => next(w, r.(traced := true))
  }

  /** `GRPCLoggingUnary` and `GRPCLoggingStream`, whose log is left out. */
  function Logging(): Interceptor {
    (w: World, r: Request, info: string, next: Handler) => next(w, r)
  }

  function BeginRpc(w: World): World {
    w.(inFlight := w.inFlight + 1)
  }

  function ObserveRpc(w: World, info: string, kind: Kind, code: Code): World {
    w.(inFlight := w.inFlight - 1, observed := w.observed + [Observed(info, kind, code)])
  }

  /** `GRPCMetricsUnary` and `GRPCMetricsStream`: a panic is observed as Internal and goes on. */
  function Measure(info: string, kind: Kind, outcome: (World, Result)): (World, Result) {
    (ObserveRpc(outcome.0, info, kind, CodeOf(outcome.1)), outcome.1)
  }

  function Metrics(enabled: bool, kind: Kind): Interceptor {
    (w: World, r: Request, info: string, next: Handler) =>
      if enabled then Measure(info, kind, next(BeginRpc(w), r)) else next(w, r)
  }

  // ----- the preset

  /** A breaker or a rate limiter, for either kind. */
  datatype Layer = Layer(unary: Interceptor, stream: Interceptor)

  datatype Preset = Preset(metrics: bool, extraUnary: seq<Option<Interceptor>>, extraStream: seq<Option<Interceptor>>,
                           breaker: Option<Layer>, limiter: Option<Layer>, freshId: string)

  function LayerOf(layer: Option<Layer>, kind: Kind): seq<Option<Interceptor>> {
    match layer
    case None => []
    case Some(l) => [Some(if kind == Unary then l.unary else l.stream)]
  }

  /** What the preset puts inside its own layers. */
  function Inner(p: Preset, kind: Kind): seq<Option<Interceptor>> {
    (if kind == Unary then p.extraUnary else p.extraStream) + LayerOf(p.breaker, kind) + LayerOf(p.limiter, kind)
  }

  function Outer(p: Preset, kind: Kind): seq<Option<Interceptor>> {
    [Some(RequestID(p.freshId)), Some(Recovery()), Some(Tracing()), Some(Logging()), Some(Metrics(p.metrics, kind))]
  }

  function Canonical(p: Preset, kind: Kind): seq<Option<Interceptor>> {
    Outer(p, kind) + Inner(p, kind)
  }

  /** `GRPCServerPreset`, by successive appends to both lists. */
  method GrpcServerPreset(p: Preset) returns (unary: seq<Option<Interceptor>>, stream: seq<Option<Interceptor>>)
    ensures unary == Canonical(p, Unary) && stream == Canonical(p, Stream)
  {
    unary := [Some(RequestID(p.freshId)), Some(Recovery()), Some(Tracing()), Some(Logging())];
    stream := [Some(RequestID(p.freshId)), Some(Recovery()), Some(Tracing()), Some(Logging())];
    unary := unary + [Some(Metrics(p.metrics, Unary))];
    stream := stream + [Some(Metrics(p.metrics, Stream))];
    unary := unary + p.extraUnary;
    stream := stream + p.extraStream;
    if p.breaker.Some? {
      unary := unary + [Some(p.breaker.value.unary)];
      stream := stream + [Some(p.breaker.value.stream)];
    }
    if p.limiter.Some? {
      unary := unary + [Some(p.limiter.value.unary)];
      stream := stream + [Some(p.limiter.value.stream)];
    }
  }

  /** The request as the inner layers see it. */
  function Prepared(p: Preset, r: Request): Request {
    Request(if r.id != "" then r.id else p.freshId, true, r.payload)
  }

  lemma ChainCons(i: Interceptor, rest: seq<Option<Interceptor>>, info: string, handler: Handler)
    ensures Chain([Some(i)] + rest, info, handler) == Wrap(i, info, Chain(rest, info, handler))
  {
    assert ([Some(i)] + rest)[1..] == rest;
  }

  /** Tracing, logging and metrics around a handler. */
  function Instrumented(p: Preset, kind: Kind, info: string, next: Handler): Handler {
    Wrap(Tracing(), info, Wrap(Logging(), info, Wrap(Metrics(p.metrics, kind), info, next)))
  }

  lemma OuterIsNested(p: Preset, kind: Kind, info: string, next: Handler)
    ensures Chain(Outer(p, kind), info, next)
         == Wrap(RequestID(p.freshId), info, Wrap(Recovery(), info, Instrumented(p, kind, info, next)))
  {
    var m := [Some(Metrics(p.metrics, kind))];
    var l := [Some(Logging())] + m;
    var t := [Some(Tracing())] + l;
    var r := [Some(Recovery())] + t;
    assert Outer(p, kind) == [Some(RequestID(p.freshId))] + r;
    assert m == m + [];
    ChainCons(Metrics(p.metrics, kind), [], info, next);
    ChainCons(Logging(), m, info, next);
    ChainCons(Tracing(), l, info, next);
    ChainCons(Recovery(), t, info, next);
    ChainCons(RequestID(p.freshId), r, info, next);
  }

  /** The outcome of the metrics layer around a handler. */
  function Measured(p: Preset, kind: Kind, info: string, next: Handler, w: World, r: Request): (World, Result) {
    if p.metrics then Measure(info, kind, next(BeginRpc(w), r)) else next(w, r)
  }

  lemma InstrumentedCalls(p: Preset, kind: Kind, info: string, next: Handler, w: World, r: Request)
    ensures Instrumented(p, kind, info, next)(w, r) == Measured(p, kind, info, next, w, r.(traced := true))
  {
    var measured := Wrap(Metrics(p.metrics, kind), info, next);
    assert measured(w, r.(traced := true)) == Measured(p, kind, info, next, w, r.(traced := true));
    assert Wrap(Logging(), info, measured)(w, r.(traced := true)) == measured(w, r.(traced := true));
  }

  /** The five outer layers, unfolded. */
  lemma OuterLayers(p: Preset, kind: Kind, info: string, next: Handler, w: World, r: Request)
    ensures Chain(Outer(p, kind), info, next)(w, r) == Recover(Measured(p, kind, info, next, w, Prepared(p, r)))
  {
    var r' := r.(id := if r.id != "" then r.id else p.freshId);
    OuterIsNested(p, kind, info, next);
    InstrumentedCalls(p, kind, info, next, w, r');
    var inner := Instrumented(p, kind, info, next);
    var guarded := Wrap(Recovery(), info, inner);
    assert guarded(w, r') == Recover(inner(w, r'));
    assert Wrap(RequestID(p.freshId), info, guarded)(w, r) == guarded(w, r');
    assert r'.(traced := true) == Prepared(p, r);
  }

  /** A layer around a handler, if there is one. */
  function Around(layer: Option<Layer>, kind: Kind, info: string, next: Handler): Handler {
    match layer
    case None => next
    case Some(l) => if kind == Unary then Wrap(l.unary, info, next) else Wrap(l.stream, info, next)
  }

  /** The product's interceptors are outside the breaker, and the breaker outside the rate
      limiter. */
  lemma InnerOrder(p: Preset, kind: Kind, info: string, handler: Handler)
    ensures Chain(Inner(p, kind), info, handler)
         == Chain(if kind == Unary then p.extraUnary else p.extraStream, info,
                  Around(p.breaker, kind, info, Around(p.limiter, kind, info, handler)))
  {
    var extra := if kind == Unary then p.extraUnary else p.extraStream;
    var breaker, limiter := LayerOf(p.breaker, kind), LayerOf(p.limiter, kind);
    ChainIsComposition(extra + breaker, limiter, info, handler);
    ChainIsComposition(extra, breaker, info, Chain(limiter, info, handler));
    LayerIsAround(p.limiter, kind, info, handler);
    LayerIsAround(p.breaker, kind, info, Around(p.limiter, kind, info, handler));
  }

  lemma LayerIsAround(layer: Option<Layer>, kind: Kind, info: string, next: Handler)
    ensures Chain(LayerOf(layer, kind), info, next) == Around(layer, kind, info, next)
  {
    if layer.Some? {
      var l := if kind == Unary then layer.value.unary else layer.value.stream;
      ChainCons(l, [], info, next);
      assert [Some(l)] + [] == LayerOf(layer, kind);
    }
  }

  /** What the inner layers and the handler make of a request: they see its ID, or a fresh
      one, a trace, and themselves counted in flight. */
  function Innermost(p: Preset, kind: Kind, info: string, handler: Handler, w: World, r: Request): (World, Result) {
    Chain(Inner(p, kind), info, handler)(
      if p.metrics then w.(inFlight := w.inFlight + 1) else w,
      Request(if r.id == "" then p.freshId else r.id, true, r.payload))
  }

  /** What the caller gets: what the inner layers return, code 13 for a panic, nothing after
      `runtime.Goexit`. */
  predicate Answers(inner: Result, result: Result) {
    match inner
    case Returned(_, _) => result == inner
    case Panicked => result == Returned(None, 13)
    case Exited => result == Exited
  }

  /** The code that is recorded. */
  predicate Records(inner: Result, code: Code) {
    match inner
    case Returned(_, returned) => code == returned
    case Panicked => code == 13
    case Exited => code == 0
  }

  /** The whole effect of the preset around arbitrary inner layers and handler. */
  lemma PresetOutcome(p: Preset, kind: Kind, info: string, handler: Handler, w: World, r: Request)
      returns (code: Code)
    ensures var (after, result) := Chain(Canonical(p, kind), info, handler)(w, r);
      var (left, inner) := Innermost(p, kind, info, handler, w, r);
      && Answers(inner, result) && Records(inner, code)
      && after == if p.metrics then World(left.inFlight - 1, left.observed + [Observed(info, kind, code)], left.rest)
                  else left
  {
    ChainIsComposition(Outer(p, kind), Inner(p, kind), info, handler);
    OuterLayers(p, kind, info, Chain(Inner(p, kind), info, handler), w, r);
    code := CodeOf(Innermost(p, kind, info, handler, w, r).1);
  }

  /** The preset never panics, whatever its inner layers and the handler do, and it returns
      unless they end by `runtime.Goexit`. */
  lemma PresetNeverPanics(p: Preset, kind: Kind, info: string, handler: Handler, w: World, r: Request)
    ensures var result := Chain(Canonical(p, kind), info, handler)(w, r).1;
      !result.Panicked? && (result.Returned? <==> !Innermost(p, kind, info, handler, w, r).1.Exited?)
  {
    var _ := PresetOutcome(p, kind, info, handler, w, r);
  }

  /** A handler that leaves the collector as it found it. */
  ghost predicate Discreet(h: Handler) {
    forall w, r :: h(w, r).0.inFlight == w.inFlight && h(w, r).0.observed == w.observed
  }

  /** An interceptor that touches the collector only through the handlers it calls. */
  ghost predicate DiscreetLayer(i: Interceptor) {
    forall info, next | Discreet(next) :: Discreet(Wrap(i, info, next))
  }

  lemma {:induction false} DiscreetChain(interceptors: seq<Option<Interceptor>>, info: string, handler: Handler)
    requires Discreet(handler)
    requires forall i | 0 <= i < |interceptors| && interceptors[i].Some? :: DiscreetLayer(interceptors[i].value)
    ensures Discreet(Chain(interceptors, info, handler))
  {
    if interceptors != [] {
      DiscreetChain(interceptors[1..], info, handler);
    }
  }

  ghost predicate DiscreetPreset(p: Preset, kind: Kind) {
    forall i | 0 <= i < |Inner(p, kind)| && Inner(p, kind)[i].Some? :: DiscreetLayer(Inner(p, kind)[i].value)
  }

  lemma InnermostIsDiscreet(p: Preset, kind: Kind, info: string, handler: Handler, w: World, r: Request)
    requires p.metrics && Discreet(handler) && DiscreetPreset(p, kind)
    ensures var left := Innermost(p, kind, info, handler, w, r).0;
      left.inFlight == w.inFlight + 1 && left.observed == w.observed
  {
    DiscreetChain(Inner(p, kind), info, handler);
  }

  /** Metrics over the whole chain: for any handler and inner layers that return, fail,
      panic, exit or call next any number of times, and do not write the collector
      themselves, the in-flight gauge returns to its prior value and exactly one observation
      is recorded. Its code is the code the caller gets, 13 if that was a panic, and 0 if the
      caller gets nothing. */
  lemma PresetObservesOnce(p: Preset, kind: Kind, info: string, handler: Handler, w: World, r: Request)
      returns (code: Code)
    requires p.metrics && Discreet(handler) && DiscreetPreset(p, kind)
    ensures var (after, result) := Chain(Canonical(p, kind), info, handler)(w, r);
      && after.inFlight == w.inFlight && after.observed == w.observed + [Observed(info, kind, code)]
      && (result.Returned? ==> code == result.code)
      && (result.Exited? ==> code == 0) && !result.Panicked?
      && (Innermost(p, kind, info, handler, w, r).1.Panicked? ==> result == Returned(None, 13))
  {
    InnermostIsDiscreet(p, kind, info, handler, w, r);
    code := PresetOutcome(p, kind, info, handler, w, r);
  }
}
