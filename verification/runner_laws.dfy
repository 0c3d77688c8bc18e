/** What a run of `RunBlocking` promises besides its shutdown: the order of startup, what a
    rollback does, what marks shutdown, and exactly when the run returns nil. */
module RunnerLaws {
  import opened Wrappers
  import opened RunnerLifecycle

  // ----- startup, in order and up to the first failure

  /** The startup hooks, the mark of a complete HTTP startup, and serving. */
  const START: Event -> bool := (e: Event) =>
    (e.Ran? && (e.phase == HttpStartup || e.phase == RunnerStartup)) || e == MarkStarted || e == Serve

  function HttpStartups(hooks: seq<Option<nat>>): seq<Event> {
    if hooks == [] then []
    else
      var rest := HttpStartups(hooks[..|hooks| - 1]);
      match hooks[|hooks| - 1]
      case None => rest
      case Some(id) => rest + [Ran(HttpStartup, id)]
  }

  function Started(c: Wiring, hook: Hook): seq<Event> {
    match hook
    case Product(id) => [Ran(RunnerStartup, id)]
    case RuntimeStartup => HttpStartups(c.httpStartup) + [MarkStarted]
    case Nil => []
    case RuntimeBeginShutdown => []
    case RuntimeShutdown => []
  }

  /** Everything a startup without a failure does. */
  function Startups(c: Wiring, hooks: seq<Hook>): seq<Event> {
    if hooks == [] then [] else Startups(c, hooks[..|hooks| - 1]) + Started(c, hooks[|hooks| - 1])
  }

  predicate StartFailed(e: Entry) {
    START(e.event) && e.err.Some?
  }

  /** The error of the first startup hook that failed. */
  function StartFailure(log: seq<Entry>): Outcome {
    if log == [] then None
    else First(StartFailure(log[..|log| - 1]), if StartFailed(log[|log| - 1]) then log[|log| - 1].err else None)
  }

  lemma SnocStart(log: seq<Entry>, e: Entry)
    ensures StartFailure(log + [e]) == First(StartFailure(log), if StartFailed(e) then e.err else None)
    ensures e.event != DrainGrpc ==>
      Events(log + [e], START) == Events(log, START) + if START(e.event) then [e.event] else []
    ensures e.event == DrainGrpc ==> Events(log + [e], START) == Events(log, START)
  {
    assert (log + [e])[..|log|] == log;
  }

  /** Two logs that tell the same of the startup. */
  predicate SameStart(log: seq<Entry>, longer: seq<Entry>) {
    Events(longer, START) == Events(log, START) && StartFailure(longer) == StartFailure(log)
  }

  lemma OtherEntry(log: seq<Entry>, e: Entry)
    requires !START(e.event)
    ensures SameStart(log, log + [e])
  {
    SnocStart(log, e);
  }

  lemma {:induction false} RunAllStarts(env: Environment, w: World, hooks: seq<Option<nat>>)
    ensures SameStart(w.log, RunAll(env, w, hooks).log)
  {
    if hooks != [] {
      RunAllStarts(env, w, hooks[..|hooks| - 1]);
      var before := RunAll(env, w, hooks[..|hooks| - 1]);
      if hooks[|hooks| - 1].Some? {
        OtherEntry(before.log, Entry(Ran(HttpShutdown, hooks[|hooks| - 1].value), env(|before.log|)));
      }
    }
  }

  lemma HttpShutStarts(c: Wiring, env: Environment, w: World)
    ensures SameStart(w.log, HttpShut(c, env, w).log)
  {
    OtherEntry(w.log, Entry(MarkShuttingDown, None));
    RunAllStarts(env, Note(w, MarkShuttingDown), c.httpShutdown);
  }

  /** What a part of the startup has done: all of it if there is no error, and otherwise a
      part of it that ends with the failure. */
  predicate Did(log: seq<Entry>, longer: seq<Entry>, all: seq<Event>, err: Outcome) {
    && StartFailure(longer) == err
    && if err.None? then Events(longer, START) == Events(log, START) + all
       else Events(log, START) <= Events(longer, START) <= Events(log, START) + all
  }

  lemma DidMore(log: seq<Entry>, middle: seq<Entry>, longer: seq<Entry>, a: seq<Event>, b: seq<Event>, err: Outcome)
    requires Did(log, middle, a, None) && Did(middle, longer, b, err)
    ensures Did(log, longer, a + b, err)
  {
    assert Events(log, START) + a + b == Events(log, START) + (a + b);
  }

  lemma StoppedThere(log: seq<Entry>, longer: seq<Entry>, a: seq<Event>, b: seq<Event>, err: Outcome)
    requires Did(log, longer, a, err) && err.Some?
    ensures Did(log, longer, a + b, err)
  {
    assert Events(log, START) + a <= Events(log, START) + (a + b);
  }

  lemma DoStarts(env: Environment, w: World, e: Event)
    requires START(e) && StartFailure(w.log).None?
    ensures var (t, err) := Do(env, w, e);
      Did(w.log, t.log, [e], err)
  {
    SnocStart(w.log, Entry(e, env(|w.log|)));
  }

  lemma NothingDone(log: seq<Entry>)
    requires StartFailure(log).None?
    ensures Did(log, log, [], None)
  {
    assert Events(log, START) + [] == Events(log, START);
  }

  lemma {:induction false} RunUntilErrorStarts(env: Environment, w: World, hooks: seq<Option<nat>>)
    requires StartFailure(w.log).None?
    ensures var (t, err) := RunUntilError(env, w, hooks);
      Did(w.log, t.log, HttpStartups(hooks), err)
  {
    if hooks == [] {
      NothingDone(w.log);
    } else {
      var past, hook := hooks[..|hooks| - 1], hooks[|hooks| - 1];
      RunUntilErrorStarts(env, w, past);
      var (before, err) := RunUntilError(env, w, past);
      if hook.Some? {
        var e := Ran(HttpStartup, hook.value);
        if err.Some? {
          StoppedThere(w.log, before.log, HttpStartups(past), [e], err);
        } else {
          DoStarts(env, before, e);
          var (t, failed) := Do(env, before, e);
          DidMore(w.log, before.log, t.log, HttpStartups(past), [e], failed);
        }
      }
    }
  }

  lemma HttpStartStarts(c: Wiring, env: Environment, w: World)
    requires StartFailure(w.log).None?
    ensures var (t, err) := HttpStart(c, env, w);
      && Did(w.log, t.log, HttpStartups(c.httpStartup) + [MarkStarted], StartFailure(t.log))
      && err.Some? == StartFailure(t.log).Some? && (err.Some? ==> err.value.Is(StartFailure(t.log).value))
  {
    RunUntilErrorStarts(env, w, c.httpStartup);
    var (started, err) := RunUntilError(env, w, c.httpStartup);
    if err.Some? {
      HttpShutStarts(c, env, started);
      StoppedThere(w.log, started.log, HttpStartups(c.httpStartup), [MarkStarted], err);
    } else {
      SnocStart(started.log, Entry(MarkStarted, None));
      DidMore(w.log, started.log, Note(started, MarkStarted).log, HttpStartups(c.httpStartup), [MarkStarted], None);
    }
  }

  /** The hooks of a startup list, apart from the shutdown of the HTTP runtime, which has no
      business there. */
  predicate Sensible(hooks: seq<Hook>) {
    RuntimeShutdown !in hooks
  }

  lemma HookStarts(c: Wiring, env: Environment, w: World, hook: Hook)
    requires StartFailure(w.log).None? && hook != RuntimeShutdown
    ensures var (t, err) := RunHook(c, env, w, RunnerStartup, hook);
      && Did(w.log, t.log, Started(c, hook), StartFailure(t.log))
      && err.Some? == StartFailure(t.log).Some? && (err.Some? ==> err.value.Is(StartFailure(t.log).value))
  {
    match hook
    case Nil => NothingDone(w.log);
    case Product(id) => DoStarts(env, w, Ran(RunnerStartup, id));
    case RuntimeStartup => HttpStartStarts(c, env, w);
    case RuntimeBeginShutdown =>
      OtherEntry(w.log, Entry(MarkShuttingDown, None));
      NothingDone(w.log);
  }

  lemma {:induction false} StartUpStarts(c: Wiring, env: Environment, w: World, hooks: seq<Hook>)
    requires StartFailure(w.log).None? && Sensible(hooks)
    ensures var (t, err) := StartUp(c, env, w, hooks);
      && Did(w.log, t.log, Startups(c, hooks), StartFailure(t.log))
      && err.Some? == StartFailure(t.log).Some? && (err.Some? ==> err.value.Is(StartFailure(t.log).value))
  {
    if hooks == [] {
      NothingDone(w.log);
    } else {
      var past, hook := hooks[..|hooks| - 1], hooks[|hooks| - 1];
      StartUpStarts(c, env, w, past);
      var (before, err) := StartUp(c, env, w, past);
      if err.Some? {
        StoppedThere(w.log, before.log, Startups(c, past), Started(c, hook), StartFailure(before.log));
      } else {
        HookStarts(c, env, before, hook);
        var t := RunHook(c, env, before, RunnerStartup, hook).0;
        DidMore(w.log, before.log, t.log, Startups(c, past), Started(c, hook), StartFailure(t.log));
      }
    }
  }

  // ----- the shutdown does not start anything

  lemma HookEnds(c: Wiring, env: Environment, w: World, phase: Phase, hook: Hook)
    requires (phase == PreShutdown || phase == PostShutdown) && hook != RuntimeStartup
    ensures SameStart(w.log, RunHook(c, env, w, phase, hook).0.log)
  {
    match hook
    case Nil =>
    case Product(id) => OtherEntry(w.log, Entry(Ran(phase, id), env(|w.log|)));
    case RuntimeBeginShutdown => OtherEntry(w.log, Entry(MarkShuttingDown, None));
    case RuntimeShutdown => HttpShutStarts(c, env, w);
  }

  lemma {:induction false} AttemptAllEnds(c: Wiring, env: Environment, w: World, phase: Phase, hooks: seq<Hook>,
                                          err: Outcome)
    requires (phase == PreShutdown || phase == PostShutdown) && RuntimeStartup !in hooks
    ensures SameStart(w.log, AttemptAll(c, env, w, phase, hooks, err).0.log)
  {
    if hooks != [] {
      AttemptAllEnds(c, env, w, phase, hooks[..|hooks| - 1], err);
      HookEnds(c, env, AttemptAll(c, env, w, phase, hooks[..|hooks| - 1], err).0, phase, hooks[|hooks| - 1]);
    }
  }

  lemma DrainEnds(c: Wiring, env: Environment, w: World, err: Outcome)
    ensures SameStart(w.log, DrainServers(c, env, w, err).0.log)
  {
    var drained := Do(env, w, DrainHttp).0;
    OtherEntry(w.log, Entry(DrainHttp, env(|w.log|)));
    OtherEntry(drained.log, Entry(StopGrpc, None));
    OtherEntry(drained.log, Entry(DrainGrpc, env(|drained.log|)));
    OtherEntry(Do(env, drained, DrainGrpc).0.log, Entry(StopGrpc, None));
  }

  lemma ShutEnds(c: Wiring, env: Environment, w: World)
    requires RuntimeStartup !in c.pre + c.post
    ensures SameStart(w.log, Shut(c, env, w).0.log)
  {
    var (w1, e1) := AttemptAll(c, env, w, PreShutdown, c.pre, None);
    var (w2, e2) := DrainServers(c, env, w1, e1);
    AttemptAllEnds(c, env, w, PreShutdown, c.pre, None);
    DrainEnds(c, env, w1, e1);
    AttemptAllEnds(c, env, w2, PostShutdown, c.post, e2);
  }

  lemma BeginStarts(c: Wiring, env: Environment)
    requires Sensible(c.startup)
    ensures var (w, err) := Begin(c, env);
      var all := Startups(c, c.startup);
      var failure := StartFailure(w.log);
      if failure.None? then err.None? && Events(w.log, START) == all + [Serve]
      else Events(w.log, START) <= all && err.Some? && err.value.Is(failure.value)
  {
    var started := StartUp(c, env, FRESH, c.startup).0;
    StartUpStarts(c, env, FRESH, c.startup);
    SnocStart(started.log, Entry(Serve, None));
    assert Events(FRESH.log, START) == [];
    assert [] + Startups(c, c.startup) == Startups(c, c.startup);
  }

  /** Every run starts up in the configured order, and stops at the first hook that fails:
      the servers are started exactly when none does, and the error of the one that does is
      returned, or joined into what is. */
  lemma StartupInOrder(c: Wiring, env: Environment, cause: Cause)
    requires Sensible(c.startup) && RuntimeStartup !in c.pre + c.post
    ensures var (t, e) := Run(c, env, cause);
      var all := Startups(c, c.startup);
      var failure := StartFailure(t.log);
      if failure.None? then Events(t.log, START) == all + [Serve]
      else Events(t.log, START) <= all && e.Some? && e.value.Is(failure.value)
  {
    BeginStarts(c, env);
    ShutEnds(c, env, Begin(c, env).0);
  }

  // ----- the rollback of the HTTP runtime

  /** A failed startup of the HTTP runtime has run every shutdown hook once it returns, and
      its error tells of the hook that failed and of the first shutdown failure. */
  lemma RollbackIsComplete(c: Wiring, env: Environment, w: World)
    requires OnceMeansAll(c, w) && StartFailure(w.log).None?
    ensures var (t, err) := HttpStart(c, env, w);
      StartFailure(t.log).Some? ==>
        && t.onceDone && Events(t.log, HTTP_HOOKS) == Present(c.httpShutdown)
        && err.Some? && err.value.Is(StartFailure(t.log).value)
        && (t.shutdownErr.Some? ==> err.value.Is(t.shutdownErr.value))
  {
    HttpStartStarts(c, env, w);
    var (started, err) := RunUntilError(env, w, c.httpStartup);
    RunUntilErrorLogs(env, w, c.httpStartup);
    RunUntilErrorStarts(env, w, c.httpStartup);
    if err.Some? {
      HttpShutLogs(c, env, started);
    }
  }

  // ----- shutdown is marked before any hook of the HTTP runtime runs

  predicate MarkedFirst(log: seq<Entry>) {
    forall i | 0 <= i < |log| && HTTP_HOOKS(log[i].event) :: MarkedBy(log[..i])
  }

  lemma SnocMarked(log: seq<Entry>, e: Entry)
    requires MarkedFirst(log) && (HTTP_HOOKS(e.event) ==> MarkedBy(log))
    ensures MarkedFirst(log + [e])
  {
    var longer := log + [e];
    forall i | 0 <= i < |longer| && HTTP_HOOKS(longer[i].event)
      ensures MarkedBy(longer[..i])
    {
      assert longer[..i] == log[..i];
      if i == |log| {
        assert log[..i] == log;
      }
    }
  }

  lemma {:induction false} RunAllMarked(env: Environment, w: World, hooks: seq<Option<nat>>)
    requires MarkedFirst(w.log) && MarkedBy(w.log)
    ensures MarkedFirst(RunAll(env, w, hooks).log) && MarkedBy(RunAll(env, w, hooks).log)
  {
    if hooks != [] {
      RunAllMarked(env, w, hooks[..|hooks| - 1]);
      var before := RunAll(env, w, hooks[..|hooks| - 1]);
      if hooks[|hooks| - 1].Some? {
        var e := Entry(Ran(HttpShutdown, hooks[|hooks| - 1].value), env(|before.log|));
        SnocMarked(before.log, e);
        MarkStays(before.log, before.log + [e]);
      }
    }
  }

  lemma HttpShutMarked(c: Wiring, env: Environment, w: World)
    requires MarkedFirst(w.log)
    ensures MarkedFirst(HttpShut(c, env, w).log) && MarkedBy(HttpShut(c, env, w).log)
  {
    var e := Entry(MarkShuttingDown, None);
    SnocMarked(w.log, e);
    assert (w.log + [e])[|w.log|].event == MarkShuttingDown;
    RunAllMarked(env, Note(w, MarkShuttingDown), c.httpShutdown);
  }

  lemma {:induction false} RunUntilErrorMarked(env: Environment, w: World, hooks: seq<Option<nat>>)
    requires MarkedFirst(w.log)
    ensures MarkedFirst(RunUntilError(env, w, hooks).0.log)
  {
    if hooks != [] {
      RunUntilErrorMarked(env, w, hooks[..|hooks| - 1]);
      var before := RunUntilError(env, w, hooks[..|hooks| - 1]).0;
      if hooks[|hooks| - 1].Some? {
        SnocMarked(before.log, Entry(Ran(HttpStartup, hooks[|hooks| - 1].value), env(|before.log|)));
      }
    }
  }

  lemma HookMarked(c: Wiring, env: Environment, w: World, phase: Phase, hook: Hook)
    requires MarkedFirst(w.log) && phase != HttpShutdown
    ensures MarkedFirst(RunHook(c, env, w, phase, hook).0.log)
  {
    match hook
    case Nil =>
    case Product(id) => SnocMarked(w.log, Entry(Ran(phase, id), env(|w.log|)));
    case RuntimeStartup =>
      RunUntilErrorMarked(env, w, c.httpStartup);
      var started := RunUntilError(env, w, c.httpStartup).0;
      SnocMarked(started.log, Entry(MarkStarted, None));
      HttpShutMarked(c, env, started);
    case RuntimeBeginShutdown => SnocMarked(w.log, Entry(MarkShuttingDown, None));
    case RuntimeShutdown => HttpShutMarked(c, env, w);
  }

  lemma {:induction false} AttemptAllMarked(c: Wiring, env: Environment, w: World, phase: Phase, hooks: seq<Hook>,
                                            err: Outcome)
    requires MarkedFirst(w.log) && phase != HttpShutdown
    ensures MarkedFirst(AttemptAll(c, env, w, phase, hooks, err).0.log)
  {
    if hooks != [] {
      AttemptAllMarked(c, env, w, phase, hooks[..|hooks| - 1], err);
      HookMarked(c, env, AttemptAll(c, env, w, phase, hooks[..|hooks| - 1], err).0, phase, hooks[|hooks| - 1]);
    }
  }

  lemma {:induction false} StartUpMarked(c: Wiring, env: Environment, w: World, hooks: seq<Hook>)
    requires MarkedFirst(w.log)
    ensures MarkedFirst(StartUp(c, env, w, hooks).0.log)
  {
    if hooks != [] {
      StartUpMarked(c, env, w, hooks[..|hooks| - 1]);
      HookMarked(c, env, StartUp(c, env, w, hooks[..|hooks| - 1]).0, RunnerStartup, hooks[|hooks| - 1]);
    }
  }

  lemma DrainMarked(c: Wiring, env: Environment, w: World, err: Outcome)
    requires MarkedFirst(w.log)
    ensures MarkedFirst(DrainServers(c, env, w, err).0.log)
  {
    var drained := Do(env, w, DrainHttp).0;
    SnocMarked(w.log, Entry(DrainHttp, env(|w.log|)));
    SnocMarked(drained.log, Entry(StopGrpc, None));
    SnocMarked(drained.log, Entry(DrainGrpc, env(|drained.log|)));
    SnocMarked(Do(env, drained, DrainGrpc).0.log, Entry(StopGrpc, None));
  }

  /** On every path, readiness is failing by the time any shutdown hook of the HTTP runtime
      runs, a rollback's included. */
  lemma MarkedBeforeHooks(c: Wiring, env: Environment, cause: Cause)
    ensures MarkedFirst(Run(c, env, cause).0.log)
  {
    var started := StartUp(c, env, FRESH, c.startup).0;
    StartUpMarked(c, env, FRESH, c.startup);
    SnocMarked(started.log, Entry(Serve, None));
    var w := Begin(c, env).0;
    var (w1, e1) := AttemptAll(c, env, w, PreShutdown, c.pre, None);
    var (w2, e2) := DrainServers(c, env, w1, e1);
    AttemptAllMarked(c, env, w, PreShutdown, c.pre, None);
    DrainMarked(c, env, w1, e1);
    AttemptAllMarked(c, env, w2, PostShutdown, c.post, e2);
  }

  // ----- what counts as the first failure

  /** An entry of the kind at `i`, with its error, and none before it. */
  predicate FirstOf(log: seq<Entry>, fails: Entry -> bool, i: nat) {
    i < |log| && fails(log[i]) && forall j | 0 <= j < i :: !fails(log[j])
  }

  const ENDS: Entry -> bool := (e: Entry) => ShutdownFailure(e)

  const STARTS: Entry -> bool := (e: Entry) => StartFailed(e)

  lemma {:induction false} FirstFailureIsFirst(log: seq<Entry>)
    ensures FirstFailure(log).Some? ==> exists i: nat :: FirstOf(log, ENDS, i) && log[i].err == FirstFailure(log)
    ensures FirstFailure(log).None? ==> forall i | 0 <= i < |log| :: !ShutdownFailure(log[i])
  {
    if log != [] {
      var n := |log| - 1;
      FirstFailureIsFirst(log[..n]);
      if FirstFailure(log[..n]).Some? {
        var i: nat :| FirstOf(log[..n], ENDS, i) && log[..n][i].err == FirstFailure(log[..n]);
        assert FirstOf(log, ENDS, i);
      } else if FirstFailure(log).Some? {
        assert FirstOf(log, ENDS, n);
      }
    }
  }

  lemma {:induction false} StartFailureIsFirst(log: seq<Entry>)
    ensures StartFailure(log).Some? ==> exists i: nat :: FirstOf(log, STARTS, i) && log[i].err == StartFailure(log)
    ensures StartFailure(log).None? ==> forall i | 0 <= i < |log| :: !StartFailed(log[i])
  {
    if log != [] {
      var n := |log| - 1;
      StartFailureIsFirst(log[..n]);
      if StartFailure(log[..n]).Some? {
        var i: nat :| FirstOf(log[..n], STARTS, i) && log[..n][i].err == StartFailure(log[..n]);
        assert FirstOf(log, STARTS, i);
      } else if StartFailure(log).Some? {
        assert FirstOf(log, STARTS, n);
      }
    }
  }

  /** `errors.Is`: an error is itself, and a join is also what its parts are; nothing else. */
  lemma IsMeans(e: Error, target: Error)
    ensures e.Is(target) <==> e == target || (e.Join? && (e.first.Is(target) || e.second.Is(target)))
  {
  }

  // ----- what the run returns

  /** A reason to stop that is no error: cancellation by the caller, a signal, or a server
      that was closed. */
  predicate Benign(cause: Cause) {
    match cause
    case ContextDone(err) => err.Is(ContextCanceled)
    case Signal => true
    case ServerExit(exit) => exit.None? || exit == Some(ServerClosed) || exit.value.Is(ContextCanceled)
  }

  /** The error of a reason to stop that is one. */
  function ErrorOf(cause: Cause): Error
    requires !Benign(cause)
  {
    match cause
    case ContextDone(err) => err
    case ServerExit(exit) => exit.value
  }

  lemma MergedError(cause: Cause, shutdownErr: Outcome)
    ensures var e := Merge(RunError(cause), shutdownErr);
      && (e.None? <==> Benign(cause) && shutdownErr.None?)
      && (!Benign(cause) ==> e.Some? && e.value.Is(ErrorOf(cause)))
      && (Benign(cause) ==> e == shutdownErr)
  {
  }

  /** A run that starts without a failure goes on untroubled. */
  lemma BeginIsClean(c: Wiring, env: Environment, cause: Cause)
    requires Sensible(c.startup) && RuntimeStartup !in c.pre + c.post
    requires StartFailure(Run(c, env, cause).0.log).None?
    ensures Begin(c, env).1.None? && Untroubled(Begin(c, env).0)
  {
    StartUpStarts(c, env, FRESH, c.startup);
    SnocStart(StartUp(c, env, FRESH, c.startup).0.log, Entry(Serve, None));
    ShutEnds(c, env, Begin(c, env).0);
    BeginTells(c, env);
  }

  /** Once started, a run returns nil if and only if it was stopped for a benign reason and
      nothing failed to shut down; any other reason is returned, or joined into what is. */
  lemma NilExactlyWhen(c: Wiring, env: Environment, cause: Cause)
    requires Sensible(c.startup) && RuntimeStartup !in c.pre + c.post
    requires StartFailure(Run(c, env, cause).0.log).None?
    ensures var (t, e) := Run(c, env, cause);
      && (e.None? <==> Benign(cause) && FirstFailure(t.log).None?)
      && (!Benign(cause) ==> e.Some? && e.value.Is(ErrorOf(cause)))
      && (Benign(cause) ==> e == FirstFailure(t.log))
  {
    BeginIsClean(c, env, cause);
    var w := Begin(c, env).0;
    ShutTells(c, env, w);
    MergedError(cause, Shut(c, env, w).1);
  }
}
