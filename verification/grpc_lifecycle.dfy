/** The lifecycle of `GRPCRuntime`: any number of callers of Start, Stop and GracefulStop race
    over `mu`, `lifecycleMu`, the once guard of the shutdown hooks and two one-way flags.

    A thread's program counter says which action it performs next; a step performs one
    action of one thread. Hooks take time: they begin in one step and end in another. */
module GrpcLifecycle {
  import opened Wrappers

  /** Hooks may be nil (false); `Err` numbers the errors they return. */
  datatype Config = Config(startupHooks: seq<bool>, shutdownHooks: seq<bool>)

  type Err = int

  datatype Role = Start | Stop | GracefulStop

  /** What a thread does next. A `locked` action runs with `lifecycleMu` held. */
  datatype Pc =
    | Enter
    | LockStartup                          // startup: lifecycleMu.Lock
    | CheckFlag                            // if r.shuttingDown
    | NextStartup(i: nat)                  // the startup hook loop
    | InStartup(i: nat)
    | SetOverall                           // SetServingStatus("", SERVING)
    | SetService                           // SetServingStatus(name, SERVING)
    | Serve
    | RollbackFlag                         // markShuttingDownLocked after a failed hook
    | RollbackHealth
    | LockFail                             // failHealth: lifecycleMu.Lock
    | FailFlag
    | FailHealth
    | Unlock
    | StopServer
    | Drain
    | EnterOnce(locked: bool)              // shutdownHooksOnce.Do
    | NextShutdown(i: nat, locked: bool)   // the shutdown hook loop
    | InShutdown(i: nat, locked: bool)
    | ReadError(locked: bool)              // return r.shutdownError
    | Refused(cause: Refusal)              // returned before any hook of this call could run
    | Served                               // Serve ended with ErrServerStopped
    | Returned(err: Option<Err>)           // returned the outcome of the shutdown hooks

  /** Why a Start call gives up before its startup. */
  datatype Refusal = AlreadyStarted | ListenFailed(err: Err) | ShuttingDown

  datatype Once = Fresh | RunningBy(t: nat) | Done

  datatype Event =
    | StartupBegin(i: nat)
    | StartupEnd(i: nat, err: Option<Err>)
    | ShutdownBegin(i: nat)
    | ShutdownEnd(i: nat, err: Option<Err>)

  /** What the threads share. `attempt` stands for `serveAttempt`, and remembers whose it
      was; `forced`, that the server was stopped, and `drained`, that it came to rest by
      itself. `log`, `failed`, `broken` (a startup hook has failed), `startupAt` and
      `shutdownAt` only record what has happened. */
  datatype Shared = Shared(
    attempt: Option<nat>,
    owner: Option<nat>,
    shuttingDown: bool,
    overall: bool,
    service: bool,
    once: Once,
    shutdownError: Option<Err>,
    log: seq<Event>,
    failed: bool,
    broken: bool,
    forced: bool,
    drained: bool,
    startupAt: nat,
    shutdownAt: nat)

  datatype State = State(roles: seq<Role>, pcs: seq<Pc>, shared: Shared)

  /** One step of thread `t`; `err` is the error it meets, where it can meet one. */
  datatype Step = Step(t: nat, err: Option<Err>)

  function Initial(roles: seq<Role>): State {
    State(roles, seq(|roles|, _ => Enter),
          Shared(None, None, false, false, false, Fresh, None, [], false, false, false, false, 0, 0))
  }

  predicate Ended(pc: Pc) {
    pc.Refused? || pc.Served? || pc.Returned?
  }

  predicate CanAct(pc: Pc, h: Shared) {
    && !Ended(pc)
    && (pc.LockStartup? || pc.LockFail? ==> h.owner.None?)
    && (pc.EnterOnce? ==> !h.once.RunningBy?)
  }

  function First(a: Option<Err>, b: Option<Err>): Option<Err> {
    if a.Some? then a else b
  }

  function Log(h: Shared, e: Event): Shared {
    h.(log := h.log + [e])
  }

  predicate Entering(pc: Pc) {
    pc.Enter? || pc.LockStartup? || pc.CheckFlag?
  }

  /** Startup is under way and has met no error. */
  predicate StartingUp(pc: Pc) {
    pc.NextStartup? || pc.InStartup? || pc.SetOverall? || pc.SetService?
  }

  predicate Starting(pc: Pc) {
    StartingUp(pc) || pc.Serve?
  }

  predicate Finishing(pc: Pc) {
    pc.EnterOnce? || pc.NextShutdown? || pc.InShutdown? || pc.ReadError?
  }

  predicate Failing(pc: Pc) {
    !Entering(pc) && !Starting(pc) && !Finishing(pc) && !Ended(pc)
  }

  /** `prepareListener`, and the lock and the flag test at the head of `startup`. */
  function EnterAct(role: Role, pc: Pc, h: Shared, t: nat, err: Option<Err>): (Pc, Shared)
    requires Entering(pc)
  {
    if pc.Enter? then
      if role != Start then (LockFail, h)
      else if h.attempt.Some? then (Refused(AlreadyStarted), h)
      else (if err.Some? then Refused(ListenFailed(err.value)) else LockStartup, h.(attempt := Some(t)))
    else if pc.LockStartup? then (CheckFlag, h.(owner := Some(t)))
    else if h.shuttingDown then (Refused(ShuttingDown), h.(owner := None))
    else (NextStartup(0), h)
  }

  /** The rest of `startup`, and serving. */
  function StartupAct(c: Config, pc: Pc, h: Shared, err: Option<Err>): (Pc, Shared)
    requires Starting(pc)
  {
    if pc.NextStartup? then
      if pc.i >= |c.startupHooks| then (SetOverall, h)
      else if !c.startupHooks[pc.i] then (NextStartup(pc.i + 1), h.(startupAt := pc.i + 1))
      else (InStartup(pc.i), Log(h, StartupBegin(pc.i)).(startupAt := pc.i + 1))
    else if pc.InStartup? then
      (if err.Some? then RollbackFlag else NextStartup(pc.i + 1),
       Log(h, StartupEnd(pc.i, err)).(broken := h.broken || err.Some?))
    else if pc.SetOverall? then (SetService, h.(overall := true))
    else if pc.SetService? then (Serve, h.(service := true, owner := None))
    else (if err.Some? then LockFail else Served, h)
  }

  /** Where a thread goes once its failHealth has returned. */
  function AfterFailHealth(role: Role): Pc {
    match role
    case Start => EnterOnce(false)
    case Stop => StopServer
    case GracefulStop => Drain
  }

  /** `markShuttingDownLocked`, `failHealth`, and what stops the server. */
  function FailAct(role: Role, pc: Pc, h: Shared, t: nat, err: Option<Err>): (Pc, Shared)
    requires Failing(pc)
  {
    if pc.RollbackFlag? then (RollbackHealth, h.(shuttingDown := true))
    else if pc.RollbackHealth? then (EnterOnce(true), h.(overall := false, service := false, failed := true))
    else if pc.LockFail? then (FailFlag, h.(owner := Some(t)))
    else if pc.FailFlag? then (FailHealth, h.(shuttingDown := true))
    else if pc.FailHealth? then (Unlock, h.(overall := false, service := false, failed := true))
    else if pc.Unlock? then (AfterFailHealth(role), h.(owner := None))
    else if pc.StopServer? then (EnterOnce(false), h.(forced := true))
    else if err.Some? then (StopServer, h)
    else (EnterOnce(false), h.(drained := true))
  }

  /** `runShutdownHooks`. */
  function OnceAct(c: Config, pc: Pc, h: Shared, t: nat, err: Option<Err>): (Pc, Shared)
    requires Finishing(pc)
  {
    if pc.EnterOnce? then
      if h.once == Fresh then (NextShutdown(0, pc.locked), h.(once := RunningBy(t))) else (ReadError(pc.locked), h)
    else if pc.NextShutdown? then
      if pc.i >= |c.shutdownHooks| then (ReadError(pc.locked), h.(once := Done))
      else if !c.shutdownHooks[pc.i] then (NextShutdown(pc.i + 1, pc.locked), h.(shutdownAt := pc.i + 1))
      else (InShutdown(pc.i, pc.locked), Log(h, ShutdownBegin(pc.i)).(shutdownAt := pc.i + 1))
    else if pc.InShutdown? then
      (NextShutdown(pc.i + 1, pc.locked), Log(h, ShutdownEnd(pc.i, err)).(shutdownError := First(h.shutdownError, err)))
    else (Returned(h.shutdownError), h.(owner := if pc.locked then None else h.owner))
  }

  /** One action of thread `t`. */
  function Act(c: Config, role: Role, pc: Pc, h: Shared, t: nat, err: Option<Err>): (Pc, Shared)
    requires !Ended(pc)
  {
    if Entering(pc) then EnterAct(role, pc, h, t, err)
    else if Starting(pc) then StartupAct(c, pc, h, err)
    else if Finishing(pc) then OnceAct(c, pc, h, t, err)
    else FailAct(role, pc, h, t, err)
  }

  predicate Enabled(s: State, step: Step) {
    step.t < |s.roles| == |s.pcs| && CanAct(s.pcs[step.t], s.shared)
  }

  function Apply(c: Config, s: State, step: Step): State
    requires Enabled(s, step)
  {
    var (pc, h) := Act(c, s.roles[step.t], s.pcs[step.t], s.shared, step.t, step.err);
    State(s.roles, s.pcs[step.t := pc], h)
  }

  predicate Feasible(c: Config, s: State, steps: seq<Step>)
    decreases |steps|, 0
  {
    steps == [] ||
    (Feasible(c, s, steps[..|steps| - 1]) && Enabled(After(c, s, steps[..|steps| - 1]), steps[|steps| - 1]))
  }

  function After(c: Config, s: State, steps: seq<Step>): State
    requires Feasible(c, s, steps)
    decreases |steps|, 1
  {
    if steps == [] then s else Apply(c, After(c, s, steps[..|steps| - 1]), steps[|steps| - 1])
  }

  // ----- what a log says

  /** The indices of the hooks that begin, in order. */
  function Begun(log: seq<Event>, startup: bool): seq<nat> {
    if log == [] then []
    else
      var rest := Begun(log[..|log| - 1], startup);
      var e := log[|log| - 1];
      if (startup && e.StartupBegin?) || (!startup && e.ShutdownBegin?) then rest + [e.i] else rest
  }

  /** Those of the first `n` hooks that are not nil. */
  function Present(hooks: seq<bool>, n: nat): seq<nat>
    requires n <= |hooks|
  {
    if n == 0 then [] else Present(hooks, n - 1) + if hooks[n - 1] then [n - 1] else []
  }

  predicate OfShutdown(e: Event) {
    e.ShutdownBegin? || e.ShutdownEnd?
  }

  /** No startup event after a shutdown event. */
  predicate StartupFirst(log: seq<Event>) {
    forall i, j | 0 <= i < j < |log| && OfShutdown(log[i]) :: OfShutdown(log[j])
  }

  predicate NoShutdownYet(log: seq<Event>) {
    forall i | 0 <= i < |log| :: !OfShutdown(log[i])
  }

  predicate Failure(e: Event) {
    e.StartupEnd? && e.err.Some?
  }

  /** A startup hook has failed. */
  predicate HookFailed(log: seq<Event>) {
    exists i | 0 <= i < |log| :: Failure(log[i])
  }

  /** No startup hook begins after one has failed. */
  predicate FailureStopsStartup(log: seq<Event>) {
    forall i, j | 0 <= i < j < |log| && Failure(log[i]) :: !log[j].StartupBegin?
  }

  function FirstError(log: seq<Event>): Option<Err> {
    if log == [] then None
    else First(FirstError(log[..|log| - 1]), if log[|log| - 1].ShutdownEnd? then log[|log| - 1].err else None)
  }

  /** The error of a shutdown hook before which none has failed. */
  predicate FirstFailed(log: seq<Event>, i: nat) {
    && i < |log| && log[i].ShutdownEnd? && log[i].err.Some?
    && forall j | 0 <= j < i && log[j].ShutdownEnd? :: log[j].err.None?
  }

  lemma {:induction false} FirstErrorIsFirst(log: seq<Event>)
    ensures FirstError(log).Some? ==> exists i: nat :: FirstFailed(log, i) && log[i].err == FirstError(log)
    ensures FirstError(log).None? ==> forall i | 0 <= i < |log| && log[i].ShutdownEnd? :: log[i].err.None?
  {
    if log != [] {
      var n := |log| - 1;
      FirstErrorIsFirst(log[..n]);
      if FirstError(log[..n]).Some? {
        var i: nat :| FirstFailed(log[..n], i) && log[..n][i].err == FirstError(log[..n]);
        assert FirstFailed(log, i);
      } else if FirstError(log).Some? {
        assert FirstFailed(log, n);
      }
    }
  }

  // ----- the invariant

  /** The thread holds `lifecycleMu`. */
  predicate Holds(pc: Pc) {
    || pc.CheckFlag? || StartingUp(pc)
    || pc.RollbackFlag? || pc.RollbackHealth? || pc.FailFlag? || pc.FailHealth? || pc.Unlock?
    || (Finishing(pc) && pc.locked)
  }

  /** A Start call that passed prepareListener and whose startup is not over. */
  predicate Attempting(pc: Pc) {
    || pc.LockStartup? || pc.CheckFlag? || StartingUp(pc)
    || pc.RollbackFlag? || pc.RollbackHealth? || pc == EnterOnce(true)
  }

  /** A call whose own failHealth has returned. */
  predicate PastFailHealth(pc: Pc) {
    pc.StopServer? || pc.Drain? || (Finishing(pc) && !pc.locked)
  }

  /** Startup has begun and no status has been set. */
  predicate BeforeServing(pc: Pc) {
    pc.LockStartup? || pc.CheckFlag? || pc.NextStartup? || pc.InStartup? || pc.SetOverall? || pc.RollbackFlag?
  }

  /** A startup hook of this call has failed. */
  predicate RollingBack(pc: Pc) {
    pc.RollbackFlag? || pc.RollbackHealth? || (Finishing(pc) && pc.locked)
  }

  predicate ThreadOk(c: Config, role: Role, pc: Pc, h: Shared, t: nat) {
    && (role != Start ==> !Attempting(pc) && !pc.Serve? && !pc.Served? && !pc.Refused? && !RollingBack(pc))
    && (role == Start ==> !pc.StopServer?) && (role != GracefulStop ==> !pc.Drain?)
    && (role != Start && (Finishing(pc) || pc.Returned?) ==> h.forced || (role == GracefulStop && h.drained))
    && (pc.Enter? ==> h.attempt != Some(t))
    && (BeforeServing(pc) ==> !h.overall && !h.service)
    && (pc.SetService? ==> h.overall && !h.service)
    && (StartingUp(pc) || pc.LockStartup? || pc.CheckFlag? || pc.Serve? ==> !h.broken)
    && (pc.SetOverall? || pc.SetService? || pc.Serve? ==> h.startupAt == |c.startupHooks|)
    && (pc.Serve? ==> h.failed || (h.overall && h.service))
    && (RollingBack(pc) ==> h.broken)
    && (h.broken && h.attempt == Some(t) ==> RollingBack(pc) || pc.Returned?)
    && (pc.Serve? || RollingBack(pc) ==> h.attempt == Some(t))
    && (pc == Refused(AlreadyStarted) ==> h.attempt.Some? && h.attempt != Some(t))
    && (pc == Refused(ShuttingDown) ==> h.shuttingDown)
    && (pc.Refused? ==> h.attempt.Some?)

    && (Holds(pc) <==> h.owner == Some(t))
    && (Attempting(pc) ==> h.attempt == Some(t))
    && (pc.LockStartup? || pc.CheckFlag? ==> h.startupAt == 0)
    && (StartingUp(pc) || pc.RollbackFlag? ==> !h.shuttingDown)
    && (pc.NextStartup? ==> h.startupAt == pc.i <= |c.startupHooks|)
    && (pc.InStartup? ==> h.startupAt == pc.i + 1 <= |c.startupHooks|)
    && (pc.RollbackHealth? ==> h.shuttingDown && !h.failed)
    && (pc.FailHealth? ==> h.shuttingDown)
    && (pc.Unlock? || Finishing(pc) || PastFailHealth(pc) || pc.Returned? ==> h.failed)
    && (pc == EnterOnce(true) ==> h.once == Fresh)
    && (pc.NextShutdown? || pc.InShutdown? <==> h.once == RunningBy(t))
    && (pc.NextShutdown? ==> h.shutdownAt == pc.i <= |c.shutdownHooks|)
    && (pc.InShutdown? ==> h.shutdownAt == pc.i + 1 <= |c.shutdownHooks|)
    && (pc.ReadError? || pc.Returned? ==> h.once == Done)
    && (pc.Returned? ==> pc.err == h.shutdownError)
  }

  predicate SharedOk(c: Config, h: Shared, n: nat) {
    && (h.owner.Some? ==> h.owner.value < n)
    && (h.once.RunningBy? ==> h.once.t < n)
    && (h.attempt.None? ==> h.startupAt == 0)
    && h.startupAt <= |c.startupHooks| && h.shutdownAt <= |c.shutdownHooks|
    && (h.attempt.None? ==> !h.overall && !h.service && !h.broken)
    && (h.attempt.Some? ==> h.attempt.value < n)
    && (h.overall || h.service ==> h.startupAt == |c.startupHooks|)
    && (h.broken ==> !h.overall && !h.service)
    && (h.failed ==> h.shuttingDown && !h.overall && !h.service)
    && (h.once != Fresh ==> h.failed)
    && (h.once == Fresh ==> h.shutdownAt == 0)
    && (h.once == Done ==> h.shutdownAt == |c.shutdownHooks|)
  }

  predicate LogOk(c: Config, h: Shared)
    requires h.startupAt <= |c.startupHooks| && h.shutdownAt <= |c.shutdownHooks|
  {
    && Begun(h.log, true) == Present(c.startupHooks, h.startupAt)
    && Begun(h.log, false) == Present(c.shutdownHooks, h.shutdownAt)
    && StartupFirst(h.log)
    && (h.once == Fresh ==> NoShutdownYet(h.log))
    && h.shutdownError == FirstError(h.log)
    && (h.broken <==> HookFailed(h.log))
    && FailureStopsStartup(h.log)
  }

  /** While a failed startup rolls back, no other call has got past its failHealth. */
  predicate RollbackAlone(pcs: seq<Pc>) {
    forall t, u | 0 <= t < |pcs| && 0 <= u < |pcs| :: pcs[t] == EnterOnce(true) ==> !PastFailHealth(pcs[u])
  }

  predicate Invariant(c: Config, s: State) {
    && |s.roles| == |s.pcs|
    && SharedOk(c, s.shared, |s.pcs|) && LogOk(c, s.shared) && RollbackAlone(s.pcs)
    && forall t | 0 <= t < |s.pcs| :: ThreadOk(c, s.roles[t], s.pcs[t], s.shared, t)
  }

  lemma PrepareOk(c: Config, role: Role, pc: Pc, h: Shared, t: nat, err: Option<Err>, n: nat)
    requires Entering(pc) && CanAct(pc, h) && t < n && SharedOk(c, h, n) && ThreadOk(c, role, pc, h, t)
    requires pc.Enter?
    ensures var (pc', h') := EnterAct(role, pc, h, t, err);
      SharedOk(c, h', n) && ThreadOk(c, role, pc', h', t)
  {
  }

  lemma BeginOk(c: Config, role: Role, pc: Pc, h: Shared, t: nat, err: Option<Err>, n: nat)
    requires Entering(pc) && CanAct(pc, h) && t < n && SharedOk(c, h, n) && ThreadOk(c, role, pc, h, t)
    requires !(pc.Enter?)
    ensures var (pc', h') := EnterAct(role, pc, h, t, err);
      SharedOk(c, h', n) && ThreadOk(c, role, pc', h', t)
  {
  }

  lemma EnterOk(c: Config, role: Role, pc: Pc, h: Shared, t: nat, err: Option<Err>, n: nat)
    requires Entering(pc) && CanAct(pc, h) && t < n && SharedOk(c, h, n) && ThreadOk(c, role, pc, h, t)
    ensures var (pc', h') := EnterAct(role, pc, h, t, err);
      SharedOk(c, h', n) && ThreadOk(c, role, pc', h', t)
  {
    if pc.Enter? {
      PrepareOk(c, role, pc, h, t, err, n);
    } else {
      BeginOk(c, role, pc, h, t, err, n);
    }
  }

  lemma EnterOkForOthers(c: Config, role: Role, pc: Pc, h: Shared, t: nat, err: Option<Err>, n: nat,
                           otherRole: Role, other: Pc, v: nat)
    requires Entering(pc) && CanAct(pc, h) && t < n && SharedOk(c, h, n) && ThreadOk(c, role, pc, h, t)
    requires v != t && ThreadOk(c, otherRole, other, h, v) && (other == EnterOnce(true) ==> !PastFailHealth(pc))
    ensures ThreadOk(c, otherRole, other, EnterAct(role, pc, h, t, err).1, v)
  {
  }

  lemma StartupHookOk(c: Config, role: Role, pc: Pc, h: Shared, t: nat, err: Option<Err>, n: nat)
    requires Starting(pc) && CanAct(pc, h) && t < n && SharedOk(c, h, n) && ThreadOk(c, role, pc, h, t)
    requires pc.NextStartup? || pc.InStartup?
    ensures var (pc', h') := StartupAct(c, pc, h, err);
      SharedOk(c, h', n) && ThreadOk(c, role, pc', h', t)
  {
  }

  lemma ServingOk(c: Config, role: Role, pc: Pc, h: Shared, t: nat, err: Option<Err>, n: nat)
    requires Starting(pc) && CanAct(pc, h) && t < n && SharedOk(c, h, n) && ThreadOk(c, role, pc, h, t)
    requires !(pc.NextStartup? || pc.InStartup?)
    ensures var (pc', h') := StartupAct(c, pc, h, err);
      SharedOk(c, h', n) && ThreadOk(c, role, pc', h', t)
  {
  }

  lemma StartupOk(c: Config, role: Role, pc: Pc, h: Shared, t: nat, err: Option<Err>, n: nat)
    requires Starting(pc) && CanAct(pc, h) && t < n && SharedOk(c, h, n) && ThreadOk(c, role, pc, h, t)
    ensures var (pc', h') := StartupAct(c, pc, h, err);
      SharedOk(c, h', n) && ThreadOk(c, role, pc', h', t)
  {
    if pc.NextStartup? || pc.InStartup? {
      StartupHookOk(c, role, pc, h, t, err, n);
    } else {
      ServingOk(c, role, pc, h, t, err, n);
    }
  }

  lemma StartupOkForOthers(c: Config, role: Role, pc: Pc, h: Shared, t: nat, err: Option<Err>, n: nat,
                           otherRole: Role, other: Pc, v: nat)
    requires Starting(pc) && CanAct(pc, h) && t < n && SharedOk(c, h, n) && ThreadOk(c, role, pc, h, t)
    requires v != t && ThreadOk(c, otherRole, other, h, v) && (other == EnterOnce(true) ==> !PastFailHealth(pc))
    ensures ThreadOk(c, otherRole, other, StartupAct(c, pc, h, err).1, v)
  {
  }

  lemma RollbackOk(c: Config, role: Role, pc: Pc, h: Shared, t: nat, err: Option<Err>, n: nat)
    requires Failing(pc) && CanAct(pc, h) && t < n && SharedOk(c, h, n) && ThreadOk(c, role, pc, h, t)
    requires pc.RollbackFlag? || pc.RollbackHealth?
    ensures var (pc', h') := FailAct(role, pc, h, t, err);
      SharedOk(c, h', n) && ThreadOk(c, role, pc', h', t)
  {
  }

  lemma FailHealthOk(c: Config, role: Role, pc: Pc, h: Shared, t: nat, err: Option<Err>, n: nat)
    requires Failing(pc) && CanAct(pc, h) && t < n && SharedOk(c, h, n) && ThreadOk(c, role, pc, h, t)
    requires pc.LockFail? || pc.FailFlag? || pc.FailHealth?
    ensures var (pc', h') := FailAct(role, pc, h, t, err);
      SharedOk(c, h', n) && ThreadOk(c, role, pc', h', t)
  {
  }

  lemma UnlockOk(c: Config, role: Role, pc: Pc, h: Shared, t: nat, err: Option<Err>, n: nat)
    requires Failing(pc) && CanAct(pc, h) && t < n && SharedOk(c, h, n) && ThreadOk(c, role, pc, h, t)
    requires pc.Unlock?
    ensures var (pc', h') := FailAct(role, pc, h, t, err);
      SharedOk(c, h', n) && ThreadOk(c, role, pc', h', t)
  {
  }

  lemma StopServerOk(c: Config, role: Role, pc: Pc, h: Shared, t: nat, err: Option<Err>, n: nat)
    requires Failing(pc) && CanAct(pc, h) && t < n && SharedOk(c, h, n) && ThreadOk(c, role, pc, h, t)
    requires pc.StopServer? || pc.Drain?
    ensures var (pc', h') := FailAct(role, pc, h, t, err);
      SharedOk(c, h', n) && ThreadOk(c, role, pc', h', t)
  {
  }

  lemma FailOk(c: Config, role: Role, pc: Pc, h: Shared, t: nat, err: Option<Err>, n: nat)
    requires Failing(pc) && CanAct(pc, h) && t < n && SharedOk(c, h, n) && ThreadOk(c, role, pc, h, t)
    ensures var (pc', h') := FailAct(role, pc, h, t, err);
      SharedOk(c, h', n) && ThreadOk(c, role, pc', h', t)
  {
    if pc.RollbackFlag? || pc.RollbackHealth? {
      RollbackOk(c, role, pc, h, t, err, n);
    } else if pc.LockFail? || pc.FailFlag? || pc.FailHealth? {
      FailHealthOk(c, role, pc, h, t, err, n);
    } else if pc.Unlock? {
      UnlockOk(c, role, pc, h, t, err, n);
    } else {
      StopServerOk(c, role, pc, h, t, err, n);
    }
  }

  lemma FailOkForOthers(c: Config, role: Role, pc: Pc, h: Shared, t: nat, err: Option<Err>, n: nat,
                           otherRole: Role, other: Pc, v: nat)
    requires Failing(pc) && CanAct(pc, h) && t < n && SharedOk(c, h, n) && ThreadOk(c, role, pc, h, t)
    requires v != t && ThreadOk(c, otherRole, other, h, v) && (other == EnterOnce(true) ==> !PastFailHealth(pc))
    ensures ThreadOk(c, otherRole, other, FailAct(role, pc, h, t, err).1, v)
  {
  }

  lemma NextHookOk(c: Config, role: Role, pc: Pc, h: Shared, t: nat, err: Option<Err>, n: nat)
    requires Finishing(pc) && CanAct(pc, h) && t < n && SharedOk(c, h, n) && ThreadOk(c, role, pc, h, t)
    requires pc.NextShutdown?
    ensures var (pc', h') := OnceAct(c, pc, h, t, err);
      SharedOk(c, h', n) && ThreadOk(c, role, pc', h', t)
  {
  }

  lemma EndedHookOk(c: Config, role: Role, pc: Pc, h: Shared, t: nat, err: Option<Err>, n: nat)
    requires Finishing(pc) && CanAct(pc, h) && t < n && SharedOk(c, h, n) && ThreadOk(c, role, pc, h, t)
    requires pc.InShutdown?
    ensures var (pc', h') := OnceAct(c, pc, h, t, err);
      SharedOk(c, h', n) && ThreadOk(c, role, pc', h', t)
  {
  }

  lemma ShutdownHookOk(c: Config, role: Role, pc: Pc, h: Shared, t: nat, err: Option<Err>, n: nat)
    requires Finishing(pc) && CanAct(pc, h) && t < n && SharedOk(c, h, n) && ThreadOk(c, role, pc, h, t)
    requires pc.NextShutdown? || pc.InShutdown?
    ensures var (pc', h') := OnceAct(c, pc, h, t, err);
      SharedOk(c, h', n) && ThreadOk(c, role, pc', h', t)
  {
    if pc.NextShutdown? {
      NextHookOk(c, role, pc, h, t, err, n);
    } else {
      EndedHookOk(c, role, pc, h, t, err, n);
    }
  }

  lemma GuardOk(c: Config, role: Role, pc: Pc, h: Shared, t: nat, err: Option<Err>, n: nat)
    requires Finishing(pc) && CanAct(pc, h) && t < n && SharedOk(c, h, n) && ThreadOk(c, role, pc, h, t)
    requires !(pc.NextShutdown? || pc.InShutdown?)
    ensures var (pc', h') := OnceAct(c, pc, h, t, err);
      SharedOk(c, h', n) && ThreadOk(c, role, pc', h', t)
  {
  }

  lemma OnceOk(c: Config, role: Role, pc: Pc, h: Shared, t: nat, err: Option<Err>, n: nat)
    requires Finishing(pc) && CanAct(pc, h) && t < n && SharedOk(c, h, n) && ThreadOk(c, role, pc, h, t)
    ensures var (pc', h') := OnceAct(c, pc, h, t, err);
      SharedOk(c, h', n) && ThreadOk(c, role, pc', h', t)
  {
    if pc.NextShutdown? || pc.InShutdown? {
      ShutdownHookOk(c, role, pc, h, t, err, n);
    } else {
      GuardOk(c, role, pc, h, t, err, n);
    }
  }

  /** While one thread runs the shutdown hooks, what it writes concerns nobody else. */
  lemma OnceIsPrivate(c: Config, h: Shared, h': Shared, t: nat, otherRole: Role, other: Pc, v: nat)
    requires h.once == RunningBy(t) && v != t && ThreadOk(c, otherRole, other, h, v)
    requires h'.once == RunningBy(t) || h'.once == Done
    requires h' == h.(log := h'.log, once := h'.once, shutdownAt := h'.shutdownAt, shutdownError := h'.shutdownError)
    ensures ThreadOk(c, otherRole, other, h', v)
  {
  }

  lemma HookOkForOthers(c: Config, role: Role, pc: Pc, h: Shared, t: nat, err: Option<Err>, n: nat,
                           otherRole: Role, other: Pc, v: nat)
    requires Finishing(pc) && CanAct(pc, h) && t < n && SharedOk(c, h, n) && ThreadOk(c, role, pc, h, t)
    requires v != t && ThreadOk(c, otherRole, other, h, v) && (other == EnterOnce(true) ==> !PastFailHealth(pc))
    requires pc.NextShutdown? || pc.InShutdown?
    ensures ThreadOk(c, otherRole, other, OnceAct(c, pc, h, t, err).1, v)
  {
    OnceIsPrivate(c, h, OnceAct(c, pc, h, t, err).1, t, otherRole, other, v);
  }

  lemma GuardOkForOthers(c: Config, role: Role, pc: Pc, h: Shared, t: nat, err: Option<Err>, n: nat,
                           otherRole: Role, other: Pc, v: nat)
    requires Finishing(pc) && CanAct(pc, h) && t < n && SharedOk(c, h, n) && ThreadOk(c, role, pc, h, t)
    requires v != t && ThreadOk(c, otherRole, other, h, v) && (other == EnterOnce(true) ==> !PastFailHealth(pc))
    requires pc.EnterOnce? || pc.ReadError?
    ensures ThreadOk(c, otherRole, other, OnceAct(c, pc, h, t, err).1, v)
  {
  }

  lemma OnceOkForOthers(c: Config, role: Role, pc: Pc, h: Shared, t: nat, err: Option<Err>, n: nat,
                           otherRole: Role, other: Pc, v: nat)
    requires Finishing(pc) && CanAct(pc, h) && t < n && SharedOk(c, h, n) && ThreadOk(c, role, pc, h, t)
    requires v != t && ThreadOk(c, otherRole, other, h, v) && (other == EnterOnce(true) ==> !PastFailHealth(pc))
    ensures ThreadOk(c, otherRole, other, OnceAct(c, pc, h, t, err).1, v)
  {
    if pc.NextShutdown? || pc.InShutdown? {
      HookOkForOthers(c, role, pc, h, t, err, n, otherRole, other, v);
    } else {
      GuardOkForOthers(c, role, pc, h, t, err, n, otherRole, other, v);
    }
  }

  lemma ActOk(c: Config, role: Role, pc: Pc, h: Shared, t: nat, err: Option<Err>, n: nat)
    requires CanAct(pc, h) && t < n && SharedOk(c, h, n) && ThreadOk(c, role, pc, h, t)
    ensures var (pc', h') := Act(c, role, pc, h, t, err);
      SharedOk(c, h', n) && ThreadOk(c, role, pc', h', t)
  {
    if Entering(pc) {
      EnterOk(c, role, pc, h, t, err, n);
    } else if Starting(pc) {
      StartupOk(c, role, pc, h, t, err, n);
    } else if Finishing(pc) {
      OnceOk(c, role, pc, h, t, err, n);
    } else {
      FailOk(c, role, pc, h, t, err, n);
    }
  }

  lemma ActOkForOthers(c: Config, role: Role, pc: Pc, h: Shared, t: nat, err: Option<Err>, n: nat,
                           otherRole: Role, other: Pc, v: nat)
    requires CanAct(pc, h) && t < n && SharedOk(c, h, n) && ThreadOk(c, role, pc, h, t)
    requires v != t && ThreadOk(c, otherRole, other, h, v) && (other == EnterOnce(true) ==> !PastFailHealth(pc))
    ensures ThreadOk(c, otherRole, other, Act(c, role, pc, h, t, err).1, v)
  {
    if Entering(pc) {
      EnterOkForOthers(c, role, pc, h, t, err, n, otherRole, other, v);
    } else if Starting(pc) {
      StartupOkForOthers(c, role, pc, h, t, err, n, otherRole, other, v);
    } else if Finishing(pc) {
      OnceOkForOthers(c, role, pc, h, t, err, n, otherRole, other, v);
    } else {
      FailOkForOthers(c, role, pc, h, t, err, n, otherRole, other, v);
    }
  }

  lemma LogSnoc(log: seq<Event>, e: Event)
    ensures Begun(log + [e], true) == Begun(log, true) + if e.StartupBegin? then [e.i] else []
    ensures Begun(log + [e], false) == Begun(log, false) + if e.ShutdownBegin? then [e.i] else []
    ensures FirstError(log + [e]) == First(FirstError(log), if e.ShutdownEnd? then e.err else None)
    ensures StartupFirst(log) && (OfShutdown(e) || NoShutdownYet(log)) ==> StartupFirst(log + [e])
    ensures NoShutdownYet(log) && !OfShutdown(e) ==> NoShutdownYet(log + [e])
  {
    assert (log + [e])[..|log + [e]| - 1] == log;
  }

  lemma FailureSnoc(log: seq<Event>, e: Event)
    ensures HookFailed(log + [e]) <==> HookFailed(log) || Failure(e)
    ensures FailureStopsStartup(log) && (e.StartupBegin? ==> !HookFailed(log)) ==> FailureStopsStartup(log + [e])
  {
    assert (log + [e])[|log|] == e;
    forall i | 0 <= i < |log|
      ensures (log + [e])[i] == log[i]
    {
    }
  }

  /** What keeps a log in order when one event is appended. */
  lemma AppendKeepsLog(c: Config, h: Shared, h': Shared, e: Event)
    requires h.startupAt <= |c.startupHooks| && h.shutdownAt <= |c.shutdownHooks| && LogOk(c, h)
    requires h'.startupAt <= |c.startupHooks| && h'.shutdownAt <= |c.shutdownHooks|
    requires h'.log == h.log + [e]
    requires Present(c.startupHooks, h'.startupAt) == Present(c.startupHooks, h.startupAt)
                                                    + if e.StartupBegin? then [e.i] else []
    requires Present(c.shutdownHooks, h'.shutdownAt) == Present(c.shutdownHooks, h.shutdownAt)
                                                      + if e.ShutdownBegin? then [e.i] else []
    requires if OfShutdown(e) then h'.once != Fresh else h.once == Fresh
    requires h'.shutdownError == First(h.shutdownError, if e.ShutdownEnd? then e.err else None)
    requires h'.broken == (h.broken || Failure(e)) && (e.StartupBegin? ==> !h.broken)
    ensures LogOk(c, h')
  {
    LogSnoc(h.log, e);
    FailureSnoc(h.log, e);
  }

  lemma StartupKeepsLog(c: Config, role: Role, pc: Pc, h: Shared, t: nat, err: Option<Err>, n: nat)
    requires Starting(pc) && SharedOk(c, h, n) && LogOk(c, h) && ThreadOk(c, role, pc, h, t)
    requires StartupAct(c, pc, h, err).1.startupAt <= |c.startupHooks|
    ensures StartupAct(c, pc, h, err).1.shutdownAt == h.shutdownAt && LogOk(c, StartupAct(c, pc, h, err).1)
  {
    var h' := StartupAct(c, pc, h, err).1;
    if pc.NextStartup? && pc.i < |c.startupHooks| && c.startupHooks[pc.i] {
      AppendKeepsLog(c, h, h', StartupBegin(pc.i));
    } else if pc.InStartup? {
      AppendKeepsLog(c, h, h', StartupEnd(pc.i, err));
    }
  }

  lemma NextHookKeepsLog(c: Config, pc: Pc, h: Shared, t: nat, err: Option<Err>, n: nat)
    requires pc.NextShutdown? && SharedOk(c, h, n) && LogOk(c, h)
    requires h.once == RunningBy(t) && h.shutdownAt == pc.i
    requires OnceAct(c, pc, h, t, err).1.shutdownAt <= |c.shutdownHooks|
    ensures LogOk(c, OnceAct(c, pc, h, t, err).1)
  {
    if pc.i < |c.shutdownHooks| && c.shutdownHooks[pc.i] {
      AppendKeepsLog(c, h, OnceAct(c, pc, h, t, err).1, ShutdownBegin(pc.i));
    }
  }

  lemma EndedHookKeepsLog(c: Config, pc: Pc, h: Shared, t: nat, err: Option<Err>, n: nat)
    requires pc.InShutdown? && SharedOk(c, h, n) && LogOk(c, h) && h.once == RunningBy(t)
    ensures LogOk(c, OnceAct(c, pc, h, t, err).1)
  {
    AppendKeepsLog(c, h, OnceAct(c, pc, h, t, err).1, ShutdownEnd(pc.i, err));
  }

  lemma OnceKeepsLog(c: Config, role: Role, pc: Pc, h: Shared, t: nat, err: Option<Err>, n: nat)
    requires Finishing(pc) && SharedOk(c, h, n) && LogOk(c, h) && ThreadOk(c, role, pc, h, t)
    requires OnceAct(c, pc, h, t, err).1.shutdownAt <= |c.shutdownHooks|
    ensures OnceAct(c, pc, h, t, err).1.startupAt == h.startupAt && LogOk(c, OnceAct(c, pc, h, t, err).1)
  {
    if pc.NextShutdown? {
      NextHookKeepsLog(c, pc, h, t, err, n);
    } else if pc.InShutdown? {
      EndedHookKeepsLog(c, pc, h, t, err, n);
    }
  }

  lemma ActKeepsLog(c: Config, role: Role, pc: Pc, h: Shared, t: nat, err: Option<Err>, n: nat)
    requires CanAct(pc, h) && SharedOk(c, h, n) && LogOk(c, h) && ThreadOk(c, role, pc, h, t)
    requires SharedOk(c, Act(c, role, pc, h, t, err).1, n)
    ensures LogOk(c, Act(c, role, pc, h, t, err).1)
  {
    if Starting(pc) {
      StartupKeepsLog(c, role, pc, h, t, err, n);
    } else if Finishing(pc) {
      OnceKeepsLog(c, role, pc, h, t, err, n);
    }
  }

  /** A thread reaches the once guard of its rollback, or gets past its failHealth, only
      from a place where it holds the lock. */
  lemma WhereActLeads(c: Config, role: Role, pc: Pc, h: Shared, t: nat, err: Option<Err>)
    requires CanAct(pc, h)
    ensures Act(c, role, pc, h, t, err).0 == EnterOnce(true) ==> pc.RollbackHealth?
    ensures PastFailHealth(Act(c, role, pc, h, t, err).0) ==> PastFailHealth(pc) || pc.Unlock?
  {
  }

  lemma StepKeepsRollbackAlone(c: Config, s: State, step: Step)
    requires Invariant(c, s) && Enabled(s, step)
    ensures RollbackAlone(Apply(c, s, step).pcs)
  {
    WhereActLeads(c, s.roles[step.t], s.pcs[step.t], s.shared, step.t, step.err);
    assert ThreadOk(c, s.roles[step.t], s.pcs[step.t], s.shared, step.t);
    var pcs := s.pcs[step.t := Act(c, s.roles[step.t], s.pcs[step.t], s.shared, step.t, step.err).0];
    forall t, u | 0 <= t < |pcs| && 0 <= u < |pcs| && pcs[t] == EnterOnce(true)
      ensures !PastFailHealth(pcs[u])
    {
      assert ThreadOk(c, s.roles[t], s.pcs[t], s.shared, t) && ThreadOk(c, s.roles[u], s.pcs[u], s.shared, u);
    }
  }

  lemma StepKeepsInvariant(c: Config, s: State, step: Step)
    requires Invariant(c, s) && Enabled(s, step)
    ensures Invariant(c, Apply(c, s, step))
    ensures |Apply(c, s, step).pcs| == |s.pcs|
  {
    var t, pc, h := step.t, s.pcs[step.t], s.shared;
    assert ThreadOk(c, s.roles[t], pc, h, t);
    StepKeepsRollbackAlone(c, s, step);
    ActOk(c, s.roles[t], pc, h, t, step.err, |s.pcs|);
    ActKeepsLog(c, s.roles[t], pc, h, t, step.err, |s.pcs|);
    forall v | 0 <= v < |s.pcs| && v != t
      ensures ThreadOk(c, s.roles[v], s.pcs[v], Act(c, s.roles[t], pc, h, t, step.err).1, v)
    {
      ActOkForOthers(c, s.roles[t], pc, h, t, step.err, |s.pcs|, s.roles[v], s.pcs[v], v);
    }
  }

  lemma {:induction false} RunKeepsInvariant(c: Config, roles: seq<Role>, steps: seq<Step>)
    requires Feasible(c, Initial(roles), steps)
    ensures Invariant(c, After(c, Initial(roles), steps))
    ensures |After(c, Initial(roles), steps).pcs| == |roles|
  {
    if steps != [] {
      RunKeepsInvariant(c, roles, steps[..|steps| - 1]);
      StepKeepsInvariant(c, After(c, Initial(roles), steps[..|steps| - 1]), steps[|steps| - 1]);
    }
  }

  // ----- the promises, over every interleaving

  /** Startup hooks begin at most once each and in order, shutdown hooks begin at most once
      each and in order, and no startup hook begins or ends after a shutdown hook began. */
  lemma HooksRunOnceInOrder(c: Config, roles: seq<Role>, steps: seq<Step>)
    requires Feasible(c, Initial(roles), steps)
    ensures var h := After(c, Initial(roles), steps).shared;
      && h.startupAt <= |c.startupHooks| && Begun(h.log, true) == Present(c.startupHooks, h.startupAt)
      && h.shutdownAt <= |c.shutdownHooks| && Begun(h.log, false) == Present(c.shutdownHooks, h.shutdownAt)
      && StartupFirst(h.log)
  {
    RunKeepsInvariant(c, roles, steps);
  }

  /** The program counter of a thread after a run. */
  function PcAfter(c: Config, roles: seq<Role>, steps: seq<Step>, t: nat): Option<Pc>
    requires Feasible(c, Initial(roles), steps)
  {
    var pcs := After(c, Initial(roles), steps).pcs;
    if t < |pcs| then Some(pcs[t]) else None
  }

  /** When a call that shuts down has returned, every shutdown hook has run, and the call
      returned the error of the first one that failed, whoever ran them. */
  lemma ShutdownIsComplete(c: Config, roles: seq<Role>, steps: seq<Step>, t: nat, err: Option<Err>)
    requires Feasible(c, Initial(roles), steps) && PcAfter(c, roles, steps, t) == Some(Returned(err))
    ensures var h := After(c, Initial(roles), steps).shared;
      && Begun(h.log, false) == Present(c.shutdownHooks, |c.shutdownHooks|)
      && err == FirstError(h.log)
  {
    RunKeepsInvariant(c, roles, steps);
    var s := After(c, Initial(roles), steps);
    assert ThreadOk(c, s.roles[t], s.pcs[t], s.shared, t);
  }

  /** Once any failHealth has returned, the status is never SERVING again, and no startup
      hook begins any more. */
  lemma {:induction false} NeverServingAgain(c: Config, roles: seq<Role>, steps: seq<Step>, later: seq<Step>, t: nat)
    requires Feasible(c, Initial(roles), steps) && Feasible(c, After(c, Initial(roles), steps), later)
    requires PcAfter(c, roles, steps, t).Some?
    requires var pc := PcAfter(c, roles, steps, t).value; PastFailHealth(pc) || pc.Returned?
    ensures var u := After(c, After(c, Initial(roles), steps), later);
      && Invariant(c, u) && u.shared.failed && u.shared.shuttingDown && !u.shared.overall && !u.shared.service
      && u.shared.startupAt == After(c, Initial(roles), steps).shared.startupAt
  {
    var s := After(c, Initial(roles), steps);
    if later == [] {
      RunKeepsInvariant(c, roles, steps);
      assert ThreadOk(c, s.roles[t], s.pcs[t], s.shared, t);
    } else {
      var m := |later| - 1;
      NeverServingAgain(c, roles, steps, later[..m], t);
      var v := After(c, s, later[..m]);
      StepKeepsInvariant(c, v, later[m]);
      FailureStays(c, v, later[m]);
    }
  }

  /** A failed runtime stays failed, and no startup hook begins any more. */
  lemma FailureStays(c: Config, s: State, step: Step)
    requires Invariant(c, s) && Enabled(s, step) && s.shared.failed
    ensures Apply(c, s, step).shared.failed
    ensures Apply(c, s, step).shared.startupAt == s.shared.startupAt
  {
    assert ThreadOk(c, s.roles[step.t], s.pcs[step.t], s.shared, step.t);
  }

  /** A failed startup hook ends the startup for good: no hook begins after it, neither status
      is or becomes SERVING, and the Start call that ran it is rolling back or has returned,
      with every shutdown hook run. */
  lemma FailedHookStopsStartup(c: Config, roles: seq<Role>, steps: seq<Step>, i: nat) returns (t: nat)
    requires Feasible(c, Initial(roles), steps)
    requires i < |After(c, Initial(roles), steps).shared.log| && Failure(After(c, Initial(roles), steps).shared.log[i])
    ensures var h := After(c, Initial(roles), steps).shared;
      && !h.overall && !h.service
      && forall j | i < j < |h.log| :: !h.log[j].StartupBegin?
    ensures PcAfter(c, roles, steps, t).Some?
    ensures var pc := PcAfter(c, roles, steps, t).value;
      && (RollingBack(pc) || pc.Returned?)
      && (Ended(pc) ==>
            Begun(After(c, Initial(roles), steps).shared.log, false) == Present(c.shutdownHooks, |c.shutdownHooks|))
  {
    RunKeepsInvariant(c, roles, steps);
    var s := After(c, Initial(roles), steps);
    t := s.shared.attempt.value;
    assert ThreadOk(c, s.roles[t], s.pcs[t], s.shared, t);
  }

  /** A status is SERVING only after every startup hook has begun, in order, and none has
      failed. */
  lemma ServingMeansStarted(c: Config, roles: seq<Role>, steps: seq<Step>)
    requires Feasible(c, Initial(roles), steps)
    ensures var h := After(c, Initial(roles), steps).shared;
      h.overall || h.service ==>
        Begun(h.log, true) == Present(c.startupHooks, |c.startupHooks|) && !HookFailed(h.log)
  {
    RunKeepsInvariant(c, roles, steps);
  }

  /** A Start call that serves has set both statuses to SERVING, and they still are unless the
      runtime has failed since. */
  lemma ServerIsServing(c: Config, roles: seq<Role>, steps: seq<Step>, t: nat)
    requires Feasible(c, Initial(roles), steps) && PcAfter(c, roles, steps, t) == Some(Serve)
    ensures var h := After(c, Initial(roles), steps).shared;
      h.failed || (h.overall && h.service)
  {
    RunKeepsInvariant(c, roles, steps);
    var s := After(c, Initial(roles), steps);
    assert ThreadOk(c, s.roles[t], s.pcs[t], s.shared, t);
  }

  /** Stop has stopped the server, and GracefulStop has stopped or drained it, before they run
      the shutdown hooks, and so before they return. */
  lemma StoppersStop(c: Config, roles: seq<Role>, steps: seq<Step>, t: nat)
    requires Feasible(c, Initial(roles), steps) && PcAfter(c, roles, steps, t).Some?
    requires t < |After(c, Initial(roles), steps).roles| && After(c, Initial(roles), steps).roles[t] != Start
    ensures var pc := PcAfter(c, roles, steps, t).value;
      var s := After(c, Initial(roles), steps);
      && (Finishing(pc) || Ended(pc) ==> s.shared.forced || (s.roles[t] == GracefulStop && s.shared.drained))
      && (Ended(pc) ==> pc.Returned?)
  {
    RunKeepsInvariant(c, roles, steps);
    var s := After(c, Initial(roles), steps);
    assert ThreadOk(c, s.roles[t], s.pcs[t], s.shared, t);
  }

  /** The server has been stopped, or is next. */
  predicate Forcing(s: State, t: nat) {
    t < |s.pcs| && (s.pcs[t] == StopServer || s.shared.forced)
  }

  lemma EnterLeavesForced(role: Role, pc: Pc, h: Shared, t: nat, err: Option<Err>)
    requires Entering(pc)
    ensures EnterAct(role, pc, h, t, err).1.forced == h.forced
  {
  }

  lemma StartupLeavesForced(c: Config, pc: Pc, h: Shared, err: Option<Err>)
    requires Starting(pc)
    ensures StartupAct(c, pc, h, err).1.forced == h.forced
  {
    if pc.NextStartup? {
      if pc.i < |c.startupHooks| && c.startupHooks[pc.i] {
        assert Log(h, StartupBegin(pc.i)).forced == h.forced;
      }
    } else if pc.InStartup? {
      assert Log(h, StartupEnd(pc.i, err)).forced == h.forced;
    }
  }

  lemma OnceLeavesForced(c: Config, pc: Pc, h: Shared, t: nat, err: Option<Err>)
    requires Finishing(pc)
    ensures OnceAct(c, pc, h, t, err).1.forced == h.forced
  {
    if pc.NextShutdown? {
      if pc.i < |c.shutdownHooks| && c.shutdownHooks[pc.i] {
        assert Log(h, ShutdownBegin(pc.i)).forced == h.forced;
      }
    } else if pc.InShutdown? {
      assert Log(h, ShutdownEnd(pc.i, err)).forced == h.forced;
    }
  }

  lemma FailKeepsForced(role: Role, pc: Pc, h: Shared, t: nat, err: Option<Err>)
    requires Failing(pc)
    ensures h.forced || pc == StopServer ==> FailAct(role, pc, h, t, err).1.forced
  {
  }

  lemma ActKeepsForced(c: Config, role: Role, pc: Pc, h: Shared, t: nat, err: Option<Err>)
    requires CanAct(pc, h)
    ensures h.forced || pc == StopServer ==> Act(c, role, pc, h, t, err).1.forced
  {
    if Entering(pc) {
      EnterLeavesForced(role, pc, h, t, err);
    } else if Starting(pc) {
      StartupLeavesForced(c, pc, h, err);
    } else if Finishing(pc) {
      OnceLeavesForced(c, pc, h, t, err);
    } else {
      FailKeepsForced(role, pc, h, t, err);
    }
  }

  lemma StepKeepsForcing(c: Config, s: State, step: Step, t: nat)
    requires Enabled(s, step) && Forcing(s, t)
    ensures Forcing(Apply(c, s, step), t)
  {
    ActKeepsForced(c, s.roles[step.t], s.pcs[step.t], s.shared, step.t, step.err);
  }

  /** A GracefulStop whose deadline passes while the server drains stops it, before it runs
      the shutdown hooks. */
  lemma {:induction false} FailedDrainForces(c: Config, roles: seq<Role>, steps: seq<Step>, t: nat, err: Err,
                                             later: seq<Step>)
    requires Feasible(c, Initial(roles), steps) && PcAfter(c, roles, steps, t) == Some(Drain)
    requires Enabled(After(c, Initial(roles), steps), Step(t, Some(err)))
    requires Feasible(c, Apply(c, After(c, Initial(roles), steps), Step(t, Some(err))), later)
    ensures var u := After(c, Apply(c, After(c, Initial(roles), steps), Step(t, Some(err))), later);
      Forcing(u, t) && (Finishing(u.pcs[t]) || Ended(u.pcs[t]) ==> u.shared.forced)
  {
    if later != [] {
      var v := Apply(c, After(c, Initial(roles), steps), Step(t, Some(err)));
      var m := |later| - 1;
      FailedDrainForces(c, roles, steps, t, err, later[..m]);
      StepKeepsForcing(c, After(c, v, later[..m]), later[m], t);
    }
  }

  /** A Start call is refused only if another one was first or the runtime is shutting down,
      unless it cannot listen; even then the one attempt is used up. */
  lemma RefusedForCause(c: Config, roles: seq<Role>, steps: seq<Step>, t: nat, cause: Refusal)
    requires Feasible(c, Initial(roles), steps) && PcAfter(c, roles, steps, t) == Some(Refused(cause))
    ensures var h := After(c, Initial(roles), steps).shared;
      && h.attempt.Some?
      && (cause == AlreadyStarted ==> h.attempt != Some(t))
      && (cause == ShuttingDown ==> h.shuttingDown)
  {
    RunKeepsInvariant(c, roles, steps);
    var s := After(c, Initial(roles), steps);
    assert ThreadOk(c, s.roles[t], s.pcs[t], s.shared, t);
  }

  predicate Undisturbed(s: State) {
    && s.roles == [Start] && |s.pcs| == 1 && !s.shared.shuttingDown && !s.shared.failed
    && (Entering(s.pcs[0]) || Starting(s.pcs[0]) || s.pcs[0].Served?)
  }

  lemma StepStaysUndisturbed(c: Config, s: State, step: Step)
    requires Invariant(c, s) && Undisturbed(s) && Enabled(s, step) && step.err == None
    ensures Undisturbed(Apply(c, s, step))
  {
    assert ThreadOk(c, s.roles[0], s.pcs[0], s.shared, 0);
  }

  /** A Start call on its own that meets no error is never turned away: it is starting up,
      serving, or has served. */
  lemma {:induction false} UndisturbedStartServes(c: Config, steps: seq<Step>)
    requires Feasible(c, Initial([Start]), steps) && forall i | 0 <= i < |steps| :: steps[i].err == None
    ensures Undisturbed(After(c, Initial([Start]), steps))
  {
    if steps != [] {
      var m := |steps| - 1;
      UndisturbedStartServes(c, steps[..m]);
      RunKeepsInvariant(c, [Start], steps[..m]);
      StepStaysUndisturbed(c, After(c, Initial([Start]), steps[..m]), steps[m]);
    }
  }

  /** On the way from a failed Serve to the outcome of the shutdown hooks. */
  predicate WindingUp(role: Role, pc: Pc) {
    && role == Start && !Entering(pc) && !Starting(pc) && !pc.Refused? && !pc.Served?
    && !pc.RollbackFlag? && !pc.RollbackHealth?
  }

  lemma StepWindsUp(c: Config, s: State, step: Step, t: nat)
    requires Invariant(c, s) && Enabled(s, step) && t < |s.pcs| && WindingUp(s.roles[t], s.pcs[t])
    ensures WindingUp(Apply(c, s, step).roles[t], Apply(c, s, step).pcs[t])
  {
    assert ThreadOk(c, s.roles[t], s.pcs[t], s.shared, t);
  }

  /** When serving fails, the Start call ends only after failing the health status and with the
      outcome of the shutdown hooks, all of which have run. */
  lemma {:induction false} FailedServeShutsDown(c: Config, roles: seq<Role>, steps: seq<Step>, t: nat, err: Err,
                                                later: seq<Step>)
    requires Feasible(c, Initial(roles), steps) && PcAfter(c, roles, steps, t) == Some(Serve)
    requires Enabled(After(c, Initial(roles), steps), Step(t, Some(err)))
    requires Feasible(c, Apply(c, After(c, Initial(roles), steps), Step(t, Some(err))), later)
    ensures var u := After(c, Apply(c, After(c, Initial(roles), steps), Step(t, Some(err))), later);
      && Invariant(c, u) && t < |u.pcs| && WindingUp(u.roles[t], u.pcs[t])
      && (Ended(u.pcs[t]) ==>
            u.shared.failed && Begun(u.shared.log, false) == Present(c.shutdownHooks, |c.shutdownHooks|)
            && u.pcs[t] == Returned(FirstError(u.shared.log)))
  {
    var s := After(c, Initial(roles), steps);
    var v := Apply(c, s, Step(t, Some(err)));
    if later == [] {
      RunKeepsInvariant(c, roles, steps);
      assert ThreadOk(c, s.roles[t], s.pcs[t], s.shared, t);
      StepKeepsInvariant(c, s, Step(t, Some(err)));
    } else {
      var m := |later| - 1;
      FailedServeShutsDown(c, roles, steps, t, err, later[..m]);
      StepKeepsInvariant(c, After(c, v, later[..m]), later[m]);
      StepWindsUp(c, After(c, v, later[..m]), later[m], t);
    }
    var u := After(c, v, later);
    assert ThreadOk(c, u.roles[t], u.pcs[t], u.shared, t);
  }

  /** A rollback, which runs with `lifecycleMu` held, never waits for the once guard. */
  lemma RollbackNeverWaits(c: Config, roles: seq<Role>, steps: seq<Step>, t: nat, err: Option<Err>)
    requires Feasible(c, Initial(roles), steps) && PcAfter(c, roles, steps, t) == Some(EnterOnce(true))
    ensures Enabled(After(c, Initial(roles), steps), Step(t, err))
    ensures Apply(c, After(c, Initial(roles), steps), Step(t, err)).shared.once == RunningBy(t)
  {
    RunKeepsInvariant(c, roles, steps);
    var s := After(c, Initial(roles), steps);
    assert ThreadOk(c, s.roles[t], s.pcs[t], s.shared, t);
  }

  /** No deadlock over the two locks and the once guard: as long as some call has not
      returned, some thread can take a step. */
  lemma SomeThreadCanMove(c: Config, roles: seq<Role>, steps: seq<Step>, t: nat) returns (mover: nat)
    requires Feasible(c, Initial(roles), steps)
    requires PcAfter(c, roles, steps, t).Some? && !Ended(PcAfter(c, roles, steps, t).value)
    ensures Enabled(After(c, Initial(roles), steps), Step(mover, None))
  {
    var s := After(c, Initial(roles), steps);
    RunKeepsInvariant(c, roles, steps);
    assert ThreadOk(c, s.roles[t], s.pcs[t], s.shared, t);
    if s.shared.once.RunningBy? {
      mover := s.shared.once.t;
      assert ThreadOk(c, s.roles[mover], s.pcs[mover], s.shared, mover);
    } else if s.shared.owner.Some? {
      mover := s.shared.owner.value;
      assert ThreadOk(c, s.roles[mover], s.pcs[mover], s.shared, mover);
    } else {
      mover := t;
    }
  }
}
