/** `Runner` composed with `HTTPRuntime`: startup hooks, rollback, serving, and the one
    shutdown sequence, on every path of `RunBlocking`.

    A run is described by a log. Which hooks fail, and with which error, is up to the
    environment, which answers each entry of the log by its position. */
module RunnerLifecycle {
  import opened Wrappers

  datatype Error = Plain(id: int) | ContextCanceled | ServerClosed | Join(first: Error, second: Error) {
    /** `errors.Is` through joins. */
    predicate Is(target: Error) {
      this == target || (Join? && (first.Is(target) || second.Is(target)))
    }
  }

  type Outcome = Option<Error>

  datatype Phase = HttpStartup | HttpShutdown | RunnerStartup | PreShutdown | PostShutdown

  datatype Event =
    | Ran(phase: Phase, id: nat)
    | MarkStarted
    | MarkShuttingDown
    | Serve
    | DrainHttp
    | DrainGrpc
    | DrainGrpcFailed      // how a projection of the log shows a DrainGrpc with an error
    | StopGrpc

  datatype Entry = Entry(event: Event, err: Outcome)

  /** A hook of the runner: a product's own, or one of the HTTP runtime's methods. */
  datatype Hook = Nil | Product(id: nat) | RuntimeStartup | RuntimeBeginShutdown | RuntimeShutdown

  datatype Grpc = NoGrpc | StopOnly | Graceful

  /** Hooks of the HTTP runtime may be nil, too. */
  datatype Wiring = Wiring(httpStartup: seq<Option<nat>>, httpShutdown: seq<Option<nat>>,
                           startup: seq<Hook>, pre: seq<Hook>, post: seq<Hook>, grpc: Grpc)

  /** Why a started runner stops. */
  datatype Cause = ContextDone(err: Error) | Signal | ServerExit(exit: Outcome)

  /** `sync.Once` and the stored error of the HTTP runtime, with everything logged so far. */
  datatype World = World(log: seq<Entry>, onceDone: bool, shutdownErr: Outcome)

  const FRESH := World([], false, None)

  type Environment = nat -> Outcome

  function First(a: Outcome, b: Outcome): Outcome {
    if a.Some? then a else b
  }

  function Do(env: Environment, w: World, e: Event): (World, Outcome) {
    (w.(log := w.log + [Entry(e, env(|w.log|))]), env(|w.log|))
  }

  function Note(w: World, e: Event): World {
    w.(log := w.log + [Entry(e, None)])
  }

  // ----- HTTPRuntime

  function RunAlso(env: Environment, before: World, hook: Option<nat>): World {
    match hook
    case None => before
    case Some(id) =>
      var (after, err) := Do(env, before, Ran(HttpShutdown, id));
      after.(shutdownErr := First(before.shutdownErr, err))
  }

  /** The shutdown hooks, all of them, keeping the first error. */
  function RunAll(env: Environment, w: World, hooks: seq<Option<nat>>): World {
    if hooks == [] then w else RunAlso(env, RunAll(env, w, hooks[..|hooks| - 1]), hooks[|hooks| - 1])
  }

  /** `HTTPRuntime.Shutdown`. */
  function HttpShut(c: Wiring, env: Environment, w: World): World {
    var marked := Note(w, MarkShuttingDown);
    if marked.onceDone then marked else RunAll(env, marked, c.httpShutdown).(onceDone := true)
  }

  function RunUnlessFailed(env: Environment, before: World, err: Outcome, hook: Option<nat>): (World, Outcome) {
    if err.Some? || hook.None? then (before, err) else Do(env, before, Ran(HttpStartup, hook.value))
  }

  /** Hooks run until one fails. */
  function RunUntilError(env: Environment, w: World, hooks: seq<Option<nat>>): (World, Outcome) {
    if hooks == [] then (w, None)
    else
      var (before, err) := RunUntilError(env, w, hooks[..|hooks| - 1]);
      RunUnlessFailed(env, before, err, hooks[|hooks| - 1])
  }

  function JoinWith(err: Error, more: Outcome): Error {
    if more.Some? then Join(err, more.value) else err
  }

  /** `HTTPRuntime.Startup`: a failing hook rolls back through `Shutdown`. */
  function HttpStart(c: Wiring, env: Environment, w: World): (World, Outcome) {
    var (started, err) := RunUntilError(env, w, c.httpStartup);
    match err
    case None => (Note(started, MarkStarted), None)
    case Some(e) =>
      var back := HttpShut(c, env, started);
      (back, Some(JoinWith(e, back.shutdownErr)))
  }

  // ----- Runner

  function RunHook(c: Wiring, env: Environment, w: World, phase: Phase, hook: Hook): (World, Outcome) {
    match hook
    case Nil => (w, None)
    case Product(id) => Do(env, w, Ran(phase, id))
    case RuntimeStartup => HttpStart(c, env, w)
    case RuntimeBeginShutdown => (Note(w, MarkShuttingDown), None)
    case RuntimeShutdown =>
      var after := HttpShut(c, env, w);
      (after, after.shutdownErr)
  }

  /** Every hook of a shutdown list is attempted; the first error is kept. */
  function AttemptAll(c: Wiring, env: Environment, w: World, phase: Phase, hooks: seq<Hook>, err: Outcome)
    : (World, Outcome) {
    if hooks == [] then (w, err)
    else
      var (before, sofar) := AttemptAll(c, env, w, phase, hooks[..|hooks| - 1], err);
      var (after, e) := RunHook(c, env, before, phase, hooks[|hooks| - 1]);
      (after, First(sofar, e))
  }

  function Forgiven(e: Outcome): Outcome {
    if e == Some(ServerClosed) then None else e
  }

  /** A failed graceful stop is followed by a hard one. */
  function DrainGrpcServer(c: Wiring, env: Environment, w: World, err: Outcome): (World, Outcome) {
    match c.grpc
    case NoGrpc => (w, err)
    case StopOnly => (Note(w, StopGrpc), err)
    case Graceful =>
      var (stopped, e) := Do(env, w, DrainGrpc);
      (if e.Some? then Note(stopped, StopGrpc) else stopped, First(err, e))
  }

  function DrainServers(c: Wiring, env: Environment, w: World, err: Outcome): (World, Outcome) {
    var (drained, e) := Do(env, w, DrainHttp);
    DrainGrpcServer(c, env, drained, First(err, Forgiven(e)))
  }

  /** `Runner.Shutdown`. */
  function Shut(c: Wiring, env: Environment, w: World): (World, Outcome) {
    var (w1, e1) := AttemptAll(c, env, w, PreShutdown, c.pre, None);
    var (w2, e2) := DrainServers(c, env, w1, e1);
    AttemptAll(c, env, w2, PostShutdown, c.post, e2)
  }

  function StartUp(c: Wiring, env: Environment, w: World, hooks: seq<Hook>): (World, Outcome) {
    if hooks == [] then (w, None)
    else
      var (before, err) := StartUp(c, env, w, hooks[..|hooks| - 1]);
      if err.Some? then (before, err) else RunHook(c, env, before, RunnerStartup, hooks[|hooks| - 1])
  }

  function RunError(cause: Cause): Outcome {
    match cause
    case ContextDone(err) => Some(err)
    case Signal => None
    case ServerExit(err) => Forgiven(err)
  }

  /** `mergeRunAndShutdownError`. */
  function Merge(runErr: Outcome, shutdownErr: Outcome): Outcome {
    if runErr.Some? && runErr.value.Is(ContextCanceled) then shutdownErr
    else if runErr.None? then shutdownErr
    else if shutdownErr.None? then runErr
    else Some(Join(runErr.value, shutdownErr.value))
  }

  /** Everything up to the one shutdown: the startup hooks, and serving if none failed. */
  function Begin(c: Wiring, env: Environment): (World, Outcome) {
    var (started, err) := StartUp(c, env, FRESH, c.startup);
    (if err.Some? then started else Note(started, Serve), err)
  }

  /** The error of a run that failed to start with `err`, or ended for `cause`. */
  function Reported(err: Outcome, cause: Cause, shutdownErr: Outcome): Outcome {
    if err.Some? then Some(JoinWith(err.value, shutdownErr)) else Merge(RunError(cause), shutdownErr)
  }

  /** `RunBlocking`. */
  function Run(c: Wiring, env: Environment, cause: Cause): (World, Outcome) {
    var (w, err) := Begin(c, env);
    var (stopped, shutdownErr) := Shut(c, env, w);
    (stopped, Reported(err, cause, shutdownErr))
  }

  // ----- what a log says

  function Shown(e: Entry): Event {
    if e.event == DrainGrpc && e.err.Some? then DrainGrpcFailed else e.event
  }

  function Events(log: seq<Entry>, keep: Event -> bool): seq<Event> {
    if log == [] then []
    else
      var rest := Events(log[..|log| - 1], keep);
      if keep(log[|log| - 1].event) then rest + [Shown(log[|log| - 1])] else rest
  }

  const HTTP_HOOKS: Event -> bool := (e: Event) => e.Ran? && e.phase == HttpShutdown

  /** The runner's own shutdown sequence: its product hooks, the drains and the hard stop. */
  const RUNNER_SEQUENCE: Event -> bool := (e: Event) =>
    || (e.Ran? && (e.phase == PreShutdown || e.phase == PostShutdown))
    || e == DrainHttp || e == DrainGrpc || e == StopGrpc

  function Present(hooks: seq<Option<nat>>): seq<Event> {
    if hooks == [] then []
    else
      var rest := Present(hooks[..|hooks| - 1]);
      match hooks[|hooks| - 1]
      case None => rest
      case Some(id) => rest + [Ran(HttpShutdown, id)]
  }

  function Products(phase: Phase, hooks: seq<Hook>): seq<Event> {
    if hooks == [] then []
    else
      var rest := Products(phase, hooks[..|hooks| - 1]);
      if hooks[|hooks| - 1].Product? then rest + [Ran(phase, hooks[|hooks| - 1].id)] else rest
  }

  lemma SnocEvents(log: seq<Entry>, e: Entry, keep: Event -> bool)
    ensures Events(log + [e], keep) == Events(log, keep) + if keep(e.event) then [Shown(e)] else []
  {
    assert (log + [e])[..|log|] == log;
  }

  /** How one action changes the two projections of the log. */
  lemma DoLogs(env: Environment, w: World, e: Event)
    requires e != DrainGrpc
    ensures Events(Do(env, w, e).0.log, HTTP_HOOKS) == Events(w.log, HTTP_HOOKS) + if HTTP_HOOKS(e) then [e] else []
    ensures Events(Do(env, w, e).0.log, RUNNER_SEQUENCE)
         == Events(w.log, RUNNER_SEQUENCE) + if RUNNER_SEQUENCE(e) then [e] else []
  {
    SnocEvents(w.log, Entry(e, env(|w.log|)), HTTP_HOOKS);
    SnocEvents(w.log, Entry(e, env(|w.log|)), RUNNER_SEQUENCE);
  }

  lemma RunAlsoLogs(env: Environment, w: World, hook: Option<nat>)
    ensures var t := RunAlso(env, w, hook);
      && t.onceDone == w.onceDone
      && Events(t.log, HTTP_HOOKS) == Events(w.log, HTTP_HOOKS)
                                       + (if hook.Some? then [Ran(HttpShutdown, hook.value)] else [])
      && Events(t.log, RUNNER_SEQUENCE) == Events(w.log, RUNNER_SEQUENCE)
  {
    if hook.Some? {
      DoLogs(env, w, Ran(HttpShutdown, hook.value));
    }
  }

  lemma RunUnlessFailedLogs(env: Environment, w: World, err: Outcome, hook: Option<nat>)
    ensures var t := RunUnlessFailed(env, w, err, hook).0;
      && t.onceDone == w.onceDone && t.shutdownErr == w.shutdownErr
      && Events(t.log, HTTP_HOOKS) == Events(w.log, HTTP_HOOKS)
      && Events(t.log, RUNNER_SEQUENCE) == Events(w.log, RUNNER_SEQUENCE)
  {
    if hook.Some? {
      DoLogs(env, w, Ran(HttpStartup, hook.value));
    }
  }

  lemma {:induction false} RunAllLogs(env: Environment, w: World, hooks: seq<Option<nat>>)
    ensures var t := RunAll(env, w, hooks);
      && t.onceDone == w.onceDone
      && Events(t.log, HTTP_HOOKS) == Events(w.log, HTTP_HOOKS) + Present(hooks)
      && Events(t.log, RUNNER_SEQUENCE) == Events(w.log, RUNNER_SEQUENCE)
  {
    if hooks != [] {
      RunAllLogs(env, w, hooks[..|hooks| - 1]);
      RunAlsoLogs(env, RunAll(env, w, hooks[..|hooks| - 1]), hooks[|hooks| - 1]);
    }
  }

  /** The HTTP runtime's hooks have run exactly when its once guard has. */
  predicate OnceMeansAll(c: Wiring, w: World) {
    Events(w.log, HTTP_HOOKS) == if w.onceDone then Present(c.httpShutdown) else []
  }

  lemma NoteLogs(w: World, e: Event)
    requires !HTTP_HOOKS(e)
    ensures Events(Note(w, e).log, HTTP_HOOKS) == Events(w.log, HTTP_HOOKS)
    ensures Events(Note(w, e).log, RUNNER_SEQUENCE)
         == Events(w.log, RUNNER_SEQUENCE) + if RUNNER_SEQUENCE(e) then [e] else []
  {
    SnocEvents(w.log, Entry(e, None), HTTP_HOOKS);
    SnocEvents(w.log, Entry(e, None), RUNNER_SEQUENCE);
  }

  lemma HttpShutLogs(c: Wiring, env: Environment, w: World)
    requires OnceMeansAll(c, w)
    ensures HttpShut(c, env, w).onceDone && OnceMeansAll(c, HttpShut(c, env, w))
    ensures Events(HttpShut(c, env, w).log, RUNNER_SEQUENCE) == Events(w.log, RUNNER_SEQUENCE)
  {
    NoteLogs(w, MarkShuttingDown);
    RunAllLogs(env, Note(w, MarkShuttingDown), c.httpShutdown);
  }

  lemma {:induction false} RunUntilErrorLogs(env: Environment, w: World, hooks: seq<Option<nat>>)
    ensures var t := RunUntilError(env, w, hooks).0;
      && t.onceDone == w.onceDone && t.shutdownErr == w.shutdownErr
      && Events(t.log, HTTP_HOOKS) == Events(w.log, HTTP_HOOKS)
      && Events(t.log, RUNNER_SEQUENCE) == Events(w.log, RUNNER_SEQUENCE)
  {
    if hooks != [] {
      var (before, err) := RunUntilError(env, w, hooks[..|hooks| - 1]);
      RunUntilErrorLogs(env, w, hooks[..|hooks| - 1]);
      RunUnlessFailedLogs(env, before, err, hooks[|hooks| - 1]);
    }
  }

  lemma HttpStartLogs(c: Wiring, env: Environment, w: World)
    requires OnceMeansAll(c, w)
    ensures var t := HttpStart(c, env, w).0;
      && OnceMeansAll(c, t) && (w.onceDone ==> t.onceDone)
      && Events(t.log, RUNNER_SEQUENCE) == Events(w.log, RUNNER_SEQUENCE)
  {
    var (started, err) := RunUntilError(env, w, c.httpStartup);
    RunUntilErrorLogs(env, w, c.httpStartup);
    if err.None? {
      NoteLogs(started, MarkStarted);
    } else {
      HttpShutLogs(c, env, started);
    }
  }

  /** Any hook of the runner keeps the once guard honest; only product hooks of the two
      shutdown lists enter the runner's sequence. */
  lemma RunHookLogs(c: Wiring, env: Environment, w: World, phase: Phase, hook: Hook)
    requires OnceMeansAll(c, w) && phase != HttpShutdown
    ensures var t := RunHook(c, env, w, phase, hook).0;
      && OnceMeansAll(c, t) && (w.onceDone || hook == RuntimeShutdown ==> t.onceDone)
      && Events(t.log, RUNNER_SEQUENCE)
         == Events(w.log, RUNNER_SEQUENCE)
          + if hook.Product? && (phase == PreShutdown || phase == PostShutdown) then [Ran(phase, hook.id)] else []
  {
    match hook
    case Nil =>
    case Product(id) =>
      DoLogs(env, w, Ran(phase, id));
    case RuntimeStartup =>
      HttpStartLogs(c, env, w);
    case RuntimeBeginShutdown =>
      NoteLogs(w, MarkShuttingDown);
    case RuntimeShutdown =>
      HttpShutLogs(c, env, w);
  }

  lemma {:induction false} AttemptAllLogs(c: Wiring, env: Environment, w: World, phase: Phase, hooks: seq<Hook>,
                                          err: Outcome)
    requires OnceMeansAll(c, w) && (phase == PreShutdown || phase == PostShutdown)
    ensures var t := AttemptAll(c, env, w, phase, hooks, err).0;
      && OnceMeansAll(c, t) && (w.onceDone || RuntimeShutdown in hooks ==> t.onceDone)
      && Events(t.log, RUNNER_SEQUENCE) == Events(w.log, RUNNER_SEQUENCE) + Products(phase, hooks)
  {
    if hooks != [] {
      AttemptAllLogs(c, env, w, phase, hooks[..|hooks| - 1], err);
      var before := AttemptAll(c, env, w, phase, hooks[..|hooks| - 1], err).0;
      var hook := hooks[|hooks| - 1];
      RunHookLogs(c, env, before, phase, hook);
      assert Products(phase, hooks)
          == Products(phase, hooks[..|hooks| - 1]) + if hook.Product? then [Ran(phase, hook.id)] else [];
    }
  }

  lemma {:induction false} StartUpLogs(c: Wiring, env: Environment, w: World, hooks: seq<Hook>)
    requires OnceMeansAll(c, w)
    ensures var t := StartUp(c, env, w, hooks).0;
      OnceMeansAll(c, t) && Events(t.log, RUNNER_SEQUENCE) == Events(w.log, RUNNER_SEQUENCE)
  {
    if hooks != [] {
      StartUpLogs(c, env, w, hooks[..|hooks| - 1]);
      var before := StartUp(c, env, w, hooks[..|hooks| - 1]).0;
      RunHookLogs(c, env, before, RunnerStartup, hooks[|hooks| - 1]);
    }
  }

  lemma Regroup3(a: seq<Event>, b: seq<Event>, c: seq<Event>)
    ensures a + b + c == a + (b + c)
  {
  }

  lemma Regroup(a: seq<Event>, b: seq<Event>, c: seq<Event>, d: seq<Event>)
    ensures a + b + c + d == a + (b + c + d)
  {
  }

  /** What stops the servers. A server that cannot stop gracefully is stopped hard, and so
      is one whose graceful stop failed. */
  function Drains(c: Wiring, failed: bool): seq<Event> {
    [DrainHttp] + GrpcDrains(c, failed)
  }

  function GrpcDrains(c: Wiring, failed: bool): seq<Event> {
    match c.grpc
    case NoGrpc => []
    case StopOnly => [StopGrpc]
    case Graceful => if failed then [DrainGrpcFailed, StopGrpc] else [DrainGrpc]
  }

  lemma DrainGrpcLogs(c: Wiring, env: Environment, w: World, err: Outcome)
    ensures var t := DrainGrpcServer(c, env, w, err).0;
      && t.onceDone == w.onceDone && Events(t.log, HTTP_HOOKS) == Events(w.log, HTTP_HOOKS)
      && Events(t.log, RUNNER_SEQUENCE) == Events(w.log, RUNNER_SEQUENCE) + GrpcDrains(c, env(|w.log|).Some?)
  {
    if c.grpc == StopOnly {
      NoteLogs(w, StopGrpc);
    } else if c.grpc == Graceful {
      GracefulLogs(env, w);
    }
  }

  lemma GracefulLogs(env: Environment, w: World)
    ensures var stopped := Do(env, w, DrainGrpc).0;
      var hard := Note(stopped, StopGrpc);
      var before := Events(w.log, RUNNER_SEQUENCE);
      && Events(stopped.log, HTTP_HOOKS) == Events(hard.log, HTTP_HOOKS) == Events(w.log, HTTP_HOOKS)
      && (env(|w.log|).None? ==> Events(stopped.log, RUNNER_SEQUENCE) == before + [DrainGrpc])
      && (env(|w.log|).Some? ==> Events(hard.log, RUNNER_SEQUENCE) == before + [DrainGrpcFailed, StopGrpc])
  {
    var e := Entry(DrainGrpc, env(|w.log|));
    SnocEvents(w.log, e, HTTP_HOOKS);
    SnocEvents(w.log, e, RUNNER_SEQUENCE);
    NoteLogs(Do(env, w, DrainGrpc).0, StopGrpc);
    if env(|w.log|).Some? {
      var before := Events(w.log, RUNNER_SEQUENCE);
      assert before + [DrainGrpcFailed] + [StopGrpc] == before + [DrainGrpcFailed, StopGrpc];
    }
  }

  lemma DrainHttpLogs(env: Environment, w: World)
    ensures var t := Do(env, w, DrainHttp).0;
      && t.onceDone == w.onceDone && |t.log| == |w.log| + 1
      && Events(t.log, HTTP_HOOKS) == Events(w.log, HTTP_HOOKS)
      && Events(t.log, RUNNER_SEQUENCE) == Events(w.log, RUNNER_SEQUENCE) + [DrainHttp]
  {
    DoLogs(env, w, DrainHttp);
  }

  lemma DrainLogs(c: Wiring, env: Environment, w: World, err: Outcome)
    requires OnceMeansAll(c, w)
    ensures var t := DrainServers(c, env, w, err).0;
      && OnceMeansAll(c, t) && t.onceDone == w.onceDone
      && Events(t.log, RUNNER_SEQUENCE) == Events(w.log, RUNNER_SEQUENCE) + Drains(c, env(|w.log| + 1).Some?)
  {
    var (drained, e) := Do(env, w, DrainHttp);
    DrainHttpLogs(env, w);
    DrainGrpcLogs(c, env, drained, First(err, Forgiven(e)));
    Regroup3(Events(w.log, RUNNER_SEQUENCE), [DrainHttp], GrpcDrains(c, env(|w.log| + 1).Some?));
  }

  /** The shutdown sequence of the runner, in order. */
  function Expected(c: Wiring, failed: bool): seq<Event> {
    Products(PreShutdown, c.pre) + Drains(c, failed) + Products(PostShutdown, c.post)
  }

  /** Draining, and the hooks after it. */
  lemma DrainAndPostLogs(c: Wiring, env: Environment, w: World, err: Outcome)
    requires OnceMeansAll(c, w)
    ensures var (w2, e2) := DrainServers(c, env, w, err);
      var t := AttemptAll(c, env, w2, PostShutdown, c.post, e2).0;
      var failed := env(|w.log| + 1).Some?;
      && OnceMeansAll(c, t) && (w.onceDone || RuntimeShutdown in c.post ==> t.onceDone)
      && Events(t.log, RUNNER_SEQUENCE)
         == Events(w.log, RUNNER_SEQUENCE) + Drains(c, failed) + Products(PostShutdown, c.post)
  {
    var (w2, e2) := DrainServers(c, env, w, err);
    DrainLogs(c, env, w, err);
    AttemptAllLogs(c, env, w2, PostShutdown, c.post, e2);
  }

  lemma ShutLogs(c: Wiring, env: Environment, w: World) returns (failed: bool)
    requires OnceMeansAll(c, w)
    ensures var t := Shut(c, env, w).0;
      && OnceMeansAll(c, t) && (w.onceDone || RuntimeShutdown in c.post ==> t.onceDone)
      && Events(t.log, RUNNER_SEQUENCE) == Events(w.log, RUNNER_SEQUENCE) + Expected(c, failed)
  {
    var (w1, e1) := AttemptAll(c, env, w, PreShutdown, c.pre, None);
    failed := env(|w1.log| + 1).Some?;
    AttemptAllLogs(c, env, w, PreShutdown, c.pre, None);
    DrainAndPostLogs(c, env, w1, e1);
    Regroup(Events(w.log, RUNNER_SEQUENCE), Products(PreShutdown, c.pre), Drains(c, failed),
            Products(PostShutdown, c.post));
  }

  /** On every path of `RunBlocking`, startup failure and rollback included, and whatever
      fails: the runner's shutdown sequence runs once, complete and in order, with the hard
      stop of the gRPC server exactly where it has no graceful one or that failed, and, if
      `HTTPRuntime.Shutdown` is wired as a shutdown hook, every shutdown hook of the HTTP
      runtime runs exactly once, in order, however often the runtime is shut down. */
  lemma EverythingIsShutDownOnce(c: Wiring, env: Environment, cause: Cause)
    ensures var sequence := Events(Run(c, env, cause).0.log, RUNNER_SEQUENCE);
      sequence == Expected(c, false) || sequence == Expected(c, true)
    ensures RuntimeShutdown in c.post ==> Events(Run(c, env, cause).0.log, HTTP_HOOKS) == Present(c.httpShutdown)
  {
    StartUpLogs(c, env, FRESH, c.startup);
    NoteLogs(StartUp(c, env, FRESH, c.startup).0, Serve);
    var failed := ShutLogs(c, env, Begin(c, env).0);
    assert Events(Run(c, env, cause).0.log, RUNNER_SEQUENCE) == Expected(c, failed);
  }

  // ----- errors

  /** Failures of the shutdown sequence that must be reported. */
  predicate ShutdownFailure(e: Entry) {
    match e.event
    case Ran(phase, _) => e.err.Some? && (phase == PreShutdown || phase == PostShutdown || phase == HttpShutdown)
    case DrainHttp => e.err.Some? && e.err != Some(ServerClosed)
    case DrainGrpc => e.err.Some?
    case _ => false
  }

  /** The error of the first shutdown failure in a log. */
  function FirstFailure(log: seq<Entry>): Outcome {
    if log == [] then None
    else First(FirstFailure(log[..|log| - 1]), if ShutdownFailure(log[|log| - 1]) then log[|log| - 1].err else None)
  }

  /** Nothing has failed to shut down so far. */
  predicate Untroubled(w: World) {
    FirstFailure(w.log).None? && w.shutdownErr.None?
  }

  /** The error in hand mentions the first shutdown failure, if there is one. */
  predicate Tells(w: World, err: Outcome) {
    if FirstFailure(w.log).Some? then err.Some? && err.value.Is(FirstFailure(w.log).value)
    else w.shutdownErr.None?
  }

  /** The error in hand is the first shutdown failure. */
  predicate Reports(w: World, err: Outcome) {
    err == FirstFailure(w.log) && (err.None? ==> w.shutdownErr.None?)
  }

  lemma SnocFailure(log: seq<Entry>, e: Entry)
    ensures FirstFailure(log + [e]) == First(FirstFailure(log), if ShutdownFailure(e) then e.err else None)
  {
    assert (log + [e])[..|log|] == log;
  }

  lemma {:induction false} FailuresStay(log: seq<Entry>, longer: seq<Entry>)
    requires log <= longer
    ensures FirstFailure(log).Some? ==> FirstFailure(longer) == FirstFailure(log)
  {
    if |log| < |longer| {
      FailuresStay(log, longer[..|longer| - 1]);
    } else {
      assert log == longer;
    }
  }

  lemma {:induction false} RunAllTells(env: Environment, w: World, hooks: seq<Option<nat>>)
    ensures w.log <= RunAll(env, w, hooks).log
    ensures Untroubled(w) ==> FirstFailure(RunAll(env, w, hooks).log) == RunAll(env, w, hooks).shutdownErr
  {
    if hooks != [] {
      RunAllTells(env, w, hooks[..|hooks| - 1]);
      var before := RunAll(env, w, hooks[..|hooks| - 1]);
      if hooks[|hooks| - 1].Some? {
        SnocFailure(before.log, Entry(Ran(HttpShutdown, hooks[|hooks| - 1].value), env(|before.log|)));
      }
    }
  }

  lemma HttpShutTells(c: Wiring, env: Environment, w: World)
    ensures w.log <= HttpShut(c, env, w).log
    ensures Untroubled(w) ==> FirstFailure(HttpShut(c, env, w).log) == HttpShut(c, env, w).shutdownErr
  {
    SnocFailure(w.log, Entry(MarkShuttingDown, None));
    RunAllTells(env, Note(w, MarkShuttingDown), c.httpShutdown);
  }

  lemma {:induction false} RunUntilErrorTells(env: Environment, w: World, hooks: seq<Option<nat>>)
    ensures w.log <= RunUntilError(env, w, hooks).0.log
    ensures Untroubled(w) ==> Untroubled(RunUntilError(env, w, hooks).0)
  {
    if hooks != [] {
      RunUntilErrorTells(env, w, hooks[..|hooks| - 1]);
      var before := RunUntilError(env, w, hooks[..|hooks| - 1]).0;
      if hooks[|hooks| - 1].Some? {
        SnocFailure(before.log, Entry(Ran(HttpStartup, hooks[|hooks| - 1].value), env(|before.log|)));
      }
    }
  }

  lemma RunHookTells(c: Wiring, env: Environment, w: World, phase: Phase, hook: Hook)
    requires phase != HttpShutdown
    ensures var (t, e) := RunHook(c, env, w, phase, hook);
      && w.log <= t.log && (Untroubled(w) ==> Tells(t, e))
      && (Untroubled(w) && hook != RuntimeStartup && (phase == PreShutdown || phase == PostShutdown) ==>
            e == FirstFailure(t.log))
  {
    match hook
    case Nil =>
    case Product(id) =>
      SnocFailure(w.log, Entry(Ran(phase, id), env(|w.log|)));
    case RuntimeStartup =>
      RunUntilErrorTells(env, w, c.httpStartup);
      var started := RunUntilError(env, w, c.httpStartup).0;
      SnocFailure(started.log, Entry(MarkStarted, None));
      HttpShutTells(c, env, started);
    case RuntimeBeginShutdown =>
      SnocFailure(w.log, Entry(MarkShuttingDown, None));
    case RuntimeShutdown =>
      HttpShutTells(c, env, w);
  }

  lemma {:induction false} AttemptAllTells(c: Wiring, env: Environment, w: World, phase: Phase, hooks: seq<Hook>,
                                           err: Outcome)
    requires (phase == PreShutdown || phase == PostShutdown) && RuntimeStartup !in hooks
    requires Reports(w, err)
    ensures var (t, e) := AttemptAll(c, env, w, phase, hooks, err);
      Reports(t, e)
  {
    if hooks != [] {
      AttemptAllTells(c, env, w, phase, hooks[..|hooks| - 1], err);
      var before := AttemptAll(c, env, w, phase, hooks[..|hooks| - 1], err).0;
      RunHookTells(c, env, before, phase, hooks[|hooks| - 1]);
      FailuresStay(before.log, RunHook(c, env, before, phase, hooks[|hooks| - 1]).0.log);
    }
  }

  lemma DrainGrpcTells(c: Wiring, env: Environment, w: World, err: Outcome)
    ensures var (t, e) := DrainGrpcServer(c, env, w, err);
      w.log <= t.log && (Reports(w, err) ==> Reports(t, e))
  {
    if c.grpc == StopOnly {
      SnocFailure(w.log, Entry(StopGrpc, None));
    } else if c.grpc == Graceful {
      var stopped := Do(env, w, DrainGrpc).0;
      SnocFailure(w.log, Entry(DrainGrpc, env(|w.log|)));
      SnocFailure(stopped.log, Entry(StopGrpc, None));
    }
  }

  lemma DrainTells(c: Wiring, env: Environment, w: World, err: Outcome)
    ensures var (t, e) := DrainServers(c, env, w, err);
      w.log <= t.log && (Reports(w, err) ==> Reports(t, e))
  {
    var (drained, e) := Do(env, w, DrainHttp);
    SnocFailure(w.log, Entry(DrainHttp, env(|w.log|)));
    DrainGrpcTells(c, env, drained, First(err, Forgiven(e)));
  }

  lemma {:induction false} AttemptAllGrows(c: Wiring, env: Environment, w: World, phase: Phase, hooks: seq<Hook>,
                                           err: Outcome)
    requires phase != HttpShutdown
    ensures w.log <= AttemptAll(c, env, w, phase, hooks, err).0.log
  {
    if hooks != [] {
      AttemptAllGrows(c, env, w, phase, hooks[..|hooks| - 1], err);
      RunHookTells(c, env, AttemptAll(c, env, w, phase, hooks[..|hooks| - 1], err).0, phase, hooks[|hooks| - 1]);
    }
  }

  /** A shutdown that starts untroubled returns exactly its first failure. */
  lemma ShutTells(c: Wiring, env: Environment, w: World)
    requires RuntimeStartup !in c.pre + c.post
    ensures var (t, e) := Shut(c, env, w);
      w.log <= t.log && (Untroubled(w) ==> e == FirstFailure(t.log))
  {
    var (w1, e1) := AttemptAll(c, env, w, PreShutdown, c.pre, None);
    var (w2, e2) := DrainServers(c, env, w1, e1);
    AttemptAllGrows(c, env, w, PreShutdown, c.pre, None);
    DrainTells(c, env, w1, e1);
    AttemptAllGrows(c, env, w2, PostShutdown, c.post, e2);
    if Untroubled(w) {
      AttemptAllTells(c, env, w, PreShutdown, c.pre, None);
      AttemptAllTells(c, env, w2, PostShutdown, c.post, e2);
    }
  }

  lemma {:induction false} StartUpTells(c: Wiring, env: Environment, w: World, hooks: seq<Hook>)
    requires Untroubled(w)
    ensures var (t, e) := StartUp(c, env, w, hooks);
      Tells(t, e)
  {
    if hooks != [] {
      StartUpTells(c, env, w, hooks[..|hooks| - 1]);
      RunHookTells(c, env, StartUp(c, env, w, hooks[..|hooks| - 1]).0, RunnerStartup, hooks[|hooks| - 1]);
    }
  }

  lemma BeginTells(c: Wiring, env: Environment)
    ensures Tells(Begin(c, env).0, Begin(c, env).1)
    ensures Begin(c, env).1.None? ==> Untroubled(Begin(c, env).0)
  {
    StartUpTells(c, env, FRESH, c.startup);
    SnocFailure(StartUp(c, env, FRESH, c.startup).0.log, Entry(Serve, None));
  }

  /** Neither way of joining errors loses one. */
  lemma NothingIsLost(err: Outcome, cause: Cause, shutdownErr: Outcome, failure: Error)
    requires (err.Some? && err.value.Is(failure)) || shutdownErr == Some(failure)
    ensures Reported(err, cause, shutdownErr).Some? && Reported(err, cause, shutdownErr).value.Is(failure)
  {
  }

  /** The first shutdown error is never lost: on every path it is what `RunBlocking`
      returns, or is joined into it. So nil means that everything shut down cleanly. */
  lemma FirstShutdownErrorSurvives(c: Wiring, env: Environment, cause: Cause)
    requires RuntimeStartup !in c.pre + c.post
    ensures var (t, e) := Run(c, env, cause);
      FirstFailure(t.log).Some? ==> e.Some? && e.value.Is(FirstFailure(t.log).value)
  {
    var (w, err) := Begin(c, env);
    BeginTells(c, env);
    ShutTells(c, env, w);
    var (t, shutdownErr) := Shut(c, env, w);
    FailuresStay(w.log, t.log);
    if FirstFailure(t.log).Some? {
      NothingIsLost(err, cause, shutdownErr, FirstFailure(t.log).value);
    }
  }

  // ----- fail-close before drain

  predicate MarkedBy(log: seq<Entry>) {
    exists i | 0 <= i < |log| :: log[i].event == MarkShuttingDown
  }

  lemma MarkStays(log: seq<Entry>, longer: seq<Entry>)
    requires log <= longer && MarkedBy(log)
    ensures MarkedBy(longer)
  {
    var i :| 0 <= i < |log| && log[i].event == MarkShuttingDown;
    assert longer[i].event == MarkShuttingDown;
  }

  lemma {:induction false} PreHooksMark(c: Wiring, env: Environment, w: World, hooks: seq<Hook>)
    requires RuntimeBeginShutdown in hooks
    ensures MarkedBy(AttemptAll(c, env, w, PreShutdown, hooks, None).0.log)
  {
    var n := |hooks| - 1;
    var before := AttemptAll(c, env, w, PreShutdown, hooks[..n], None).0;
    RunHookTells(c, env, before, PreShutdown, hooks[n]);
    var after := RunHook(c, env, before, PreShutdown, hooks[n]).0;
    if hooks[n] == RuntimeBeginShutdown {
      assert after.log[|before.log|].event == MarkShuttingDown;
    } else {
      PreHooksMark(c, env, w, hooks[..n]);
      MarkStays(before.log, after.log);
    }
  }

  /** With `BeginShutdown` wired as a pre-shutdown hook, readiness fails before the HTTP
      server starts to drain, on every path. */
  lemma ReadinessFailsBeforeDrain(c: Wiring, env: Environment, cause: Cause)
    requires RuntimeBeginShutdown in c.pre
    ensures var log := Run(c, env, cause).0.log;
      exists j | 0 <= j < |log| :: log[j].event == DrainHttp && MarkedBy(log[..j])
  {
    var w := Begin(c, env).0;
    PreHooksMark(c, env, w, c.pre);
    var (w1, e1) := AttemptAll(c, env, w, PreShutdown, c.pre, None);
    var (w2, e2) := DrainServers(c, env, w1, e1);
    DrainTells(c, env, w1, e1);
    AttemptAllGrows(c, env, w2, PostShutdown, c.post, e2);
    var log := Run(c, env, cause).0.log;
    var j := |w1.log|;
    assert w2.log[j].event == DrainHttp && w2.log <= log;
    assert log[..j] == w1.log;
  }

  // ----- the objects

  /** `HTTPRuntime`, with the log it shares with the runner. */
  class HTTPRuntime {
    const wiring: Wiring
    const env: Environment
    var log: seq<Entry>
    var onceDone: bool
    var shutdownErr: Outcome

    ghost function View(): World
      reads this
    {
      World(log, onceDone, shutdownErr)
    }

    constructor (wiring: Wiring, env: Environment)
      ensures this.wiring == wiring && this.env == env && View() == FRESH
    {
      this.wiring, this.env := wiring, env;
      log, onceDone, shutdownErr := [], false, None;
    }

    method Call(e: Event) returns (err: Outcome)
      modifies this`log
      ensures (View(), err) == Do(env, old(View()), e)
    {
      err := env(|log|);
      log := log + [Entry(e, err)];
    }

    method Mark(e: Event)
      modifies this`log
      ensures View() == Note(old(View()), e)
    {
      log := log + [Entry(e, None)];
    }

    method Shutdown() returns (err: Outcome)
      modifies this
      ensures View() == HttpShut(wiring, env, old(View()))
      ensures err == shutdownErr
    {
      Mark(MarkShuttingDown);
      if !onceDone {
        ghost var marked := View();
        var hooks := wiring.httpShutdown;
        for i := 0 to |hooks|
          invariant View() == RunAll(env, marked, hooks[..i])
        {
          assert hooks[..i + 1][..i] == hooks[..i];
          if hooks[i].Some? {
            var e := Call(Ran(HttpShutdown, hooks[i].value));
            if e.Some? && shutdownErr.None? {
              shutdownErr := e;
            }
          }
        }
        assert hooks[..|hooks|] == hooks;
        onceDone := true;
      }
      return shutdownErr;
    }

    method Startup() returns (err: Outcome)
      modifies this
      ensures (View(), err) == HttpStart(wiring, env, old(View()))
    {
      var hooks := wiring.httpStartup;
      ghost var start := View();
      for i := 0 to |hooks|
        invariant (View(), None) == RunUntilError(env, start, hooks[..i])
      {
        assert hooks[..i + 1][..i] == hooks[..i];
        if hooks[i].Some? {
          var e := Call(Ran(HttpStartup, hooks[i].value));
          if e.Some? {
            StoppedEarly(env, start, hooks, i + 1);
            var rollback := Shutdown();
            return Some(if rollback.Some? then Join(e.value, rollback.value) else e.value);
          }
        }
      }
      assert hooks[..|hooks|] == hooks;
      Mark(MarkStarted);
      return None;
    }
  }

  lemma {:induction false} StoppedEarly(env: Environment, w: World, hooks: seq<Option<nat>>, n: nat)
    requires n <= |hooks| && RunUntilError(env, w, hooks[..n]).1.Some?
    ensures RunUntilError(env, w, hooks) == RunUntilError(env, w, hooks[..n])
    decreases |hooks|
  {
    if n == |hooks| {
      assert hooks[..n] == hooks;
    } else {
      assert hooks[..|hooks| - 1][..n] == hooks[..n];
      StoppedEarly(env, w, hooks[..|hooks| - 1], n);
    }
  }

  lemma {:induction false} StartUpStopped(c: Wiring, env: Environment, w: World, hooks: seq<Hook>, n: nat)
    requires n <= |hooks| && StartUp(c, env, w, hooks[..n]).1.Some?
    ensures StartUp(c, env, w, hooks) == StartUp(c, env, w, hooks[..n])
    decreases |hooks|
  {
    if n == |hooks| {
      assert hooks[..n] == hooks;
    } else {
      assert hooks[..|hooks| - 1][..n] == hooks[..n];
      StartUpStopped(c, env, w, hooks[..|hooks| - 1], n);
    }
  }

  class Runner {
    const runtime: HTTPRuntime

    constructor (runtime: HTTPRuntime)
      ensures this.runtime == runtime
    {
      this.runtime := runtime;
    }

    method RunOne(phase: Phase, hook: Hook) returns (err: Outcome)
      modifies runtime
      ensures (runtime.View(), err) == RunHook(runtime.wiring, runtime.env, old(runtime.View()), phase, hook)
    {
      match hook
      case Nil => return None;
      case Product(id) => err := runtime.Call(Ran(phase, id));
      case RuntimeStartup => err := runtime.Startup();
      case RuntimeBeginShutdown =>
        runtime.Mark(MarkShuttingDown);
        return None;
      case RuntimeShutdown => err := runtime.Shutdown();
    }

    method Attempt(phase: Phase, hooks: seq<Hook>, before: Outcome) returns (firstErr: Outcome)
      modifies runtime
      ensures (runtime.View(), firstErr)
           == AttemptAll(runtime.wiring, runtime.env, old(runtime.View()), phase, hooks, before)
    {
      firstErr := before;
      ghost var start := runtime.View();
      for i := 0 to |hooks|
        invariant (runtime.View(), firstErr)
               == AttemptAll(runtime.wiring, runtime.env, start, phase, hooks[..i], before)
      {
        assert hooks[..i + 1][..i] == hooks[..i];
        var err := RunOne(phase, hooks[i]);
        if err.Some? && firstErr.None? {
          firstErr := err;
        }
      }
      assert hooks[..|hooks|] == hooks;
    }

    method Shutdown() returns (firstErr: Outcome)
      modifies runtime
      ensures (runtime.View(), firstErr) == Shut(runtime.wiring, runtime.env, old(runtime.View()))
    {
      firstErr := Attempt(PreShutdown, runtime.wiring.pre, None);
      var err := runtime.Call(DrainHttp);
      if err.Some? && err.value != ServerClosed && firstErr.None? {
        firstErr := err;
      }
      match runtime.wiring.grpc {
        case NoGrpc =>
        case StopOnly => runtime.Mark(StopGrpc);
        case Graceful =>
          err := runtime.Call(DrainGrpc);
          if err.Some? {
            if firstErr.None? {
              firstErr := err;
            }
            runtime.Mark(StopGrpc);
          }
      }
      firstErr := Attempt(PostShutdown, runtime.wiring.post, firstErr);
    }

    method RunBlocking(cause: Cause) returns (err: Outcome)
      requires runtime.View() == FRESH
      modifies runtime
      ensures (runtime.View(), err) == Run(runtime.wiring, runtime.env, cause)
    {
      var hooks := runtime.wiring.startup;
      for i := 0 to |hooks|
        invariant (runtime.View(), None) == StartUp(runtime.wiring, runtime.env, FRESH, hooks[..i])
      {
        assert hooks[..i + 1][..i] == hooks[..i];
        var e := RunOne(RunnerStartup, hooks[i]);
        if e.Some? {
          StartUpStopped(runtime.wiring, runtime.env, FRESH, hooks, i + 1);
          var failed := Shutdown();
          return Some(if failed.Some? then Join(e.value, failed.value) else e.value);
        }
      }
      assert hooks[..|hooks|] == hooks;
      runtime.Mark(Serve);
      var shutdownErr := Shutdown();
      return Merge(RunError(cause), shutdownErr);
    }
  }
}
