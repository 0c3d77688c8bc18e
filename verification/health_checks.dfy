/** Coalesced health checks: many probes, one worker at a time.

    `healthCheckExecution` lets concurrent probes of one check share a single run of its
    function. Every line that touches shared state is one step here, and any enabled step
    of any probe, worker or clock may come next. */
module HealthChecks {
  import opened Wrappers

  /** `context.Context.Err`: sticky once it is not nil. */
  datatype CtxErr = Alive | DeadlineExceeded | Canceled

  /** An error of a check; `Timeout` is any error that wraps `context.DeadlineExceeded`. */
  datatype CheckError = Timeout | Panic | Failure(id: int)

  /** How a check function ends; `runtime.Goexit` runs the worker's deferred function
      without a panic and without an error. */
  datatype FnResult = Returned(err: Option<CheckError>) | Panicked | Exited

  function ErrOf(r: FnResult): Option<CheckError> {
    match r
    case Returned(err) => err
    case Panicked => Some(Panic)
    case Exited => None
  }

  /** The worker goroutine, by what it does next: run `fn`, write `err`, close `done`,
      `finish`, `cancel`. */
  datatype Worker = Running | Writing(err: Option<CheckError>) | Closing | Finishing | Cancelling | Gone

  datatype Call = Call(worker: Worker, ctx: CtxErr, err: Option<CheckError>, done: bool, result: Option<FnResult>)

  datatype Verdict =
    | Healthy(call: nat)
    | Unhealthy(call: nat, err: CheckError)
    | TimedOut(call: nat)
    | OwnContext
    | BareContext(call: nat)

  /** One `runCheck`, by what it does next. */
  datatype Probe =
    | Arriving
    | Selecting(call: nat)      // the outer select
    | Peeking(call: nat)        // the inner select, after the call's context was done
    | AskingOwn(call: nat)      // ctx.Err()
    | AskingCall(call: nat)     // errors.Is(call.ctx.Err(), DeadlineExceeded)
    | ReadingCtx(call: nat)     // normalizeHealthCheckCallError, first read
    | ReadingErr(call: nat)     // normalizeHealthCheckCallError, second read
    | Told(verdict: Verdict)

  datatype Prober = Prober(pc: Probe, cancelled: bool)

  datatype State = State(current: Option<nat>, calls: seq<Call>, probes: seq<Prober>)

  datatype Step =
    | StartOrJoin(p: nat)
    | SeeDone(p: nat)
    | SeeOwnContext(p: nat)
    | SeeCallContext(p: nat)
    | Peek(p: nat)
    | AskOwn(p: nat)
    | AskCall(p: nat)
    | ReadCtx(p: nat)
    | ReadErr(p: nat)
    | CancelProbe(p: nat)
    | FnReturns(c: nat, result: FnResult)
    | WriteErr(c: nat)
    | CloseDone(c: nat)
    | Finish(c: nat)
    | CancelCall(c: nat)
    | DeadlineFires(c: nat)

  /** The call a probe has joined, if any. */
  function CallOf(pc: Probe): Option<nat> {
    match pc
    case Arriving => None
    case Selecting(c) => Some(c)
    case Peeking(c) => Some(c)
    case AskingOwn(c) => Some(c)
    case AskingCall(c) => Some(c)
    case ReadingCtx(c) => Some(c)
    case ReadingErr(c) => Some(c)
    case Told(_) => None
  }

  predicate WorkerAt(s: State, c: nat, w: Worker) {
    c < |s.calls| && s.calls[c].worker == w
  }

  predicate OnCall(s: State, p: nat) {
    p < |s.probes| && CallOf(s.probes[p].pc).Some? && CallOf(s.probes[p].pc).value < |s.calls|
  }

  function Joined(s: State, p: nat): Call
    requires OnCall(s, p)
  {
    s.calls[CallOf(s.probes[p].pc).value]
  }

  predicate Enabled(s: State, step: Step) {
    match step
    case StartOrJoin(p) => p < |s.probes| && s.probes[p].pc == Arriving
    case SeeDone(p) => OnCall(s, p) && s.probes[p].pc.Selecting? && Joined(s, p).done
    case SeeOwnContext(p) => OnCall(s, p) && s.probes[p].pc.Selecting? && s.probes[p].cancelled
    case SeeCallContext(p) => OnCall(s, p) && s.probes[p].pc.Selecting? && Joined(s, p).ctx != Alive
    case Peek(p) => OnCall(s, p) && s.probes[p].pc.Peeking?
    case AskOwn(p) => OnCall(s, p) && s.probes[p].pc.AskingOwn?
    case AskCall(p) => OnCall(s, p) && s.probes[p].pc.AskingCall?
    case ReadCtx(p) => OnCall(s, p) && s.probes[p].pc.ReadingCtx?
    case ReadErr(p) => OnCall(s, p) && s.probes[p].pc.ReadingErr?
    case CancelProbe(p) => p < |s.probes|
    case FnReturns(c, _) => WorkerAt(s, c, Running)
    case WriteErr(c) => c < |s.calls| && s.calls[c].worker.Writing?
    case CloseDone(c) => WorkerAt(s, c, Closing)
    case Finish(c) => WorkerAt(s, c, Finishing)
    case CancelCall(c) => WorkerAt(s, c, Cancelling)
    case DeadlineFires(c) => c < |s.calls| && s.calls[c].ctx == Alive
  }

  function Move(s: State, p: nat, pc: Probe): State
    requires p < |s.probes|
  {
    s.(probes := s.probes[p := s.probes[p].(pc := pc)])
  }

  function Update(s: State, c: nat, call: Call): State
    requires c < |s.calls|
  {
    s.(calls := s.calls[c := call])
  }

  /** `startOrJoin`, one locked section. */
  function Join(s: State, p: nat): State
    requires p < |s.probes|
  {
    match s.current
    case Some(c) => Move(s, p, Selecting(c))
    case None =>
      var c := |s.calls|;
      Move(s.(calls := s.calls + [Call(Running, Alive, None, false, None)], current := Some(c)), p, Selecting(c))
  }

  /** `finish`, one locked section. */
  function Clear(current: Option<nat>, c: nat): Option<nat> {
    if current == Some(c) then None else current
  }

  function Apply(s: State, step: Step): State
    requires Enabled(s, step)
  {
    match step
    case StartOrJoin(p) => Join(s, p)
    case SeeDone(p) => Move(s, p, ReadingCtx(s.probes[p].pc.call))
    case SeeOwnContext(p) => Move(s, p, Told(OwnContext))
    case SeeCallContext(p) => Move(s, p, Peeking(s.probes[p].pc.call))
    case Peek(p) =>
      var c := s.probes[p].pc.call;
      Move(s, p, if s.calls[c].done then ReadingCtx(c) else AskingOwn(c))
    case AskOwn(p) =>
      var c := s.probes[p].pc.call;
      Move(s, p, if s.probes[p].cancelled then Told(OwnContext) else AskingCall(c))
    case AskCall(p) =>
      var c := s.probes[p].pc.call;
      Move(s, p, Told(if s.calls[c].ctx == DeadlineExceeded then TimedOut(c) else BareContext(c)))
    case ReadCtx(p) =>
      var c := s.probes[p].pc.call;
      Move(s, p, if s.calls[c].ctx == DeadlineExceeded then Told(TimedOut(c)) else ReadingErr(c))
    case ReadErr(p) =>
      var c := s.probes[p].pc.call;
      Move(s, p, Told(match s.calls[c].err
                      case None => Healthy(c)
                      case Some(e) => if e == Timeout then TimedOut(c) else Unhealthy(c, e)))
    case CancelProbe(p) => s.(probes := s.probes[p := s.probes[p].(cancelled := true)])
    case FnReturns(c, result) =>
      Update(s, c, s.calls[c].(worker := Writing(ErrOf(result)), result := Some(result)))
    case WriteErr(c) => Update(s, c, s.calls[c].(err := s.calls[c].worker.err, worker := Closing))
    case CloseDone(c) => Update(s, c, s.calls[c].(done := true, worker := Finishing))
    case Finish(c) => Update(s, c, s.calls[c].(worker := Cancelling)).(current := Clear(s.current, c))
    case CancelCall(c) =>
      Update(s, c, s.calls[c].(worker := Gone, ctx := if s.calls[c].ctx == Alive then Canceled else s.calls[c].ctx))
    case DeadlineFires(c) => Update(s, c, s.calls[c].(ctx := DeadlineExceeded))
  }

  /** `n` probes that are about to arrive at an idle execution object. */
  function Initial(n: nat): State {
    State(None, [], seq(n, _ => Prober(Arriving, false)))
  }

  predicate Feasible(s: State, steps: seq<Step>)
    decreases |steps|, 0
  {
    steps == [] ||
    (Feasible(s, steps[..|steps| - 1]) && Enabled(After(s, steps[..|steps| - 1]), steps[|steps| - 1]))
  }

  function After(s: State, steps: seq<Step>): State
    requires Feasible(s, steps)
    decreases |steps|, 1
  {
    if steps == [] then s else Apply(After(s, steps[..|steps| - 1]), steps[|steps| - 1])
  }

  // ----- what every step keeps

  predicate Unfinished(w: Worker) {
    w != Cancelling && w != Gone
  }

  predicate CallInvariant(call: Call) {
    && (call.done <==> call.worker == Finishing || call.worker == Cancelling || call.worker == Gone)
    && (call.ctx == Canceled ==> call.worker == Gone)
    && (call.worker == Gone ==> call.ctx != Alive)
    && (call.result.None? <==> call.worker == Running)
    && (call.worker.Writing? ==> call.result.Some? && call.worker.err == ErrOf(call.result.value))
    && (call.worker == Closing || call.done ==> call.result.Some? && call.err == ErrOf(call.result.value))
  }

  predicate ProbeInvariant(s: State, pc: Probe) {
    && (CallOf(pc).Some? ==> CallOf(pc).value < |s.calls|)
    && (pc.Peeking? ==> s.calls[pc.call].ctx != Alive)
    && (pc.AskingOwn? || pc.AskingCall? ==> s.calls[pc.call].ctx == DeadlineExceeded)
    && (pc.ReadingCtx? || pc.ReadingErr? ==> s.calls[pc.call].done)
    && (pc.Told? ==> Justified(s, pc.verdict))
  }

  /** What a verdict says about the call it was told for. */
  predicate Justified(s: State, v: Verdict) {
    match v
    case Healthy(c) =>
      && c < |s.calls| && s.calls[c].done && s.calls[c].err == None
      && (s.calls[c].result == Some(Returned(None)) || s.calls[c].result == Some(Exited))
    case Unhealthy(c, e) => c < |s.calls| && s.calls[c].done && s.calls[c].err == Some(e) && e != Timeout
    case TimedOut(c) => c < |s.calls| && Poisoned(s.calls[c])
    case OwnContext => true
    case BareContext(_) => false
  }

  /** The deadline has passed, or the check itself reported a timeout. */
  predicate Poisoned(call: Call) {
    call.ctx == DeadlineExceeded || (call.done && call.err == Some(Timeout))
  }

  predicate Invariant(s: State) {
    && (forall c | 0 <= c < |s.calls| :: CallInvariant(s.calls[c]))
    && (forall c | 0 <= c < |s.calls| :: Unfinished(s.calls[c].worker) <==> s.current == Some(c))
    && (s.current.Some? ==> s.current.value < |s.calls|)
    && (forall p | 0 <= p < |s.probes| :: ProbeInvariant(s, s.probes[p].pc))
  }

  /** What no step takes back from a call. */
  predicate Later(a: Call, b: Call) {
    && (a.result.Some? ==> b.result == a.result)
    && (a.done ==> b.done && b.err == a.err && b.result == a.result)
    && (a.ctx != Alive ==> b.ctx == a.ctx)
  }

  lemma StepAdvancesCalls(s: State, step: Step, c: nat)
    requires Enabled(s, step) && c < |s.calls| && CallInvariant(s.calls[c])
    ensures c < |Apply(s, step).calls|
    ensures Later(s.calls[c], Apply(s, step).calls[c])
    ensures CallInvariant(Apply(s, step).calls[c])
  {
  }

  lemma ProbeInvariantStays(s: State, t: State, pc: Probe)
    requires ProbeInvariant(s, pc) && |s.calls| <= |t.calls|
    requires forall c | 0 <= c < |s.calls| :: Later(s.calls[c], t.calls[c])
    ensures ProbeInvariant(t, pc)
  {
  }

  /** A probe's own step takes it to a justified place. */
  lemma ProbeAdvances(s: State, step: Step, p: nat)
    requires Invariant(s) && Enabled(s, step) && p < |s.probes|
    requires Apply(s, step).calls == s.calls
    ensures ProbeInvariant(s, Apply(s, step).probes[p].pc)
  {
    assert ProbeInvariant(s, s.probes[p].pc);
    if CallOf(s.probes[p].pc).Some? {
      assert CallInvariant(Joined(s, p));
    }
  }

  lemma StepKeepsProbes(s: State, step: Step, p: nat)
    requires Invariant(s) && Enabled(s, step) && p < |s.probes|
    ensures |Apply(s, step).probes| == |s.probes|
    ensures ProbeInvariant(Apply(s, step), Apply(s, step).probes[p].pc)
  {
    var t := Apply(s, step);
    assert ProbeInvariant(s, s.probes[p].pc);
    if t.calls == s.calls {
      ProbeAdvances(s, step, p);
    } else {
      forall c | 0 <= c < |s.calls|
        ensures Later(s.calls[c], t.calls[c])
      {
        StepAdvancesCalls(s, step, c);
      }
      ProbeInvariantStays(s, t, s.probes[p].pc);
    }
  }

  lemma StepKeepsCalls(s: State, step: Step, c: nat)
    requires Invariant(s) && Enabled(s, step) && c < |Apply(s, step).calls|
    ensures CallInvariant(Apply(s, step).calls[c])
    ensures Unfinished(Apply(s, step).calls[c].worker) <==> Apply(s, step).current == Some(c)
  {
    if c < |s.calls| {
      StepAdvancesCalls(s, step, c);
    }
  }

  lemma StepKeepsInvariant(s: State, step: Step)
    requires Invariant(s) && Enabled(s, step)
    ensures Invariant(Apply(s, step))
  {
    var t := Apply(s, step);
    forall c | 0 <= c < |t.calls|
      ensures CallInvariant(t.calls[c]) && (Unfinished(t.calls[c].worker) <==> t.current == Some(c))
    {
      StepKeepsCalls(s, step, c);
    }
    assert |t.probes| == |s.probes|;
    forall p | 0 <= p < |t.probes|
      ensures ProbeInvariant(t, t.probes[p].pc)
    {
      StepKeepsProbes(s, step, p);
    }
  }

  lemma {:induction false} RunKeepsInvariant(n: nat, steps: seq<Step>)
    requires Feasible(Initial(n), steps)
    ensures Invariant(After(Initial(n), steps))
  {
    if steps != [] {
      RunKeepsInvariant(n, steps[..|steps| - 1]);
      StepKeepsInvariant(After(Initial(n), steps[..|steps| - 1]), steps[|steps| - 1]);
    }
  }

  // ----- the protocol's promises, over every interleaving

  /** Single flight: at most one run of the function is active, and it is the current call. */
  lemma AtMostOneRun(n: nat, steps: seq<Step>, c: nat, d: nat)
    requires Feasible(Initial(n), steps)
    requires WorkerAt(After(Initial(n), steps), c, Running)
    ensures After(Initial(n), steps).current == Some(c)
    ensures WorkerAt(After(Initial(n), steps), d, Running) ==> c == d
  {
    RunKeepsInvariant(n, steps);
  }

  /** `finish` always finds its own call and clears it; its guard never fails. */
  lemma FinishClearsItsOwnCall(n: nat, steps: seq<Step>, c: nat)
    requires Feasible(Initial(n), steps) && Enabled(After(Initial(n), steps), Finish(c))
    ensures After(Initial(n), steps).current == Some(c)
    ensures Apply(After(Initial(n), steps), Finish(c)).current == None
  {
    RunKeepsInvariant(n, steps);
  }

  /** A worker that is gone has released its call's context: the deadline cannot fire any
      more. */
  lemma GoneWorkerReleases(n: nat, steps: seq<Step>, c: nat)
    requires Feasible(Initial(n), steps) && WorkerAt(After(Initial(n), steps), c, Gone)
    ensures !Enabled(After(Initial(n), steps), DeadlineFires(c))
  {
    RunKeepsInvariant(n, steps);
    assert CallInvariant(After(Initial(n), steps).calls[c]);
  }

  /** A probe that arrives joins a call that has not finished yet, and a run of the check is
      started only if none is active. */
  lemma JoinIsFresh(n: nat, steps: seq<Step>, p: nat)
    requires Feasible(Initial(n), steps) && Enabled(After(Initial(n), steps), StartOrJoin(p))
    ensures var s := After(Initial(n), steps);
      var t := Apply(s, StartOrJoin(p));
      && OnCall(t, p) && CallOf(t.probes[p].pc) == t.current && Unfinished(Joined(t, p).worker)
      && if exists d :: 0 <= d < |s.calls| && Unfinished(s.calls[d].worker) then t.calls == s.calls
         else |t.calls| == |s.calls| + 1 && t.calls[..|s.calls|] == s.calls && WorkerAt(t, |s.calls|, Running)
  {
    RunKeepsInvariant(n, steps);
    var s := After(Initial(n), steps);
    if s.current.Some? {
      assert Unfinished(s.calls[s.current.value].worker);
    }
  }

  /** The call a verdict is about. */
  function About(v: Verdict): Option<nat> {
    match v
    case Healthy(c) => Some(c)
    case Unhealthy(c, _) => Some(c)
    case TimedOut(c) => Some(c)
    case OwnContext => None
    case BareContext(c) => Some(c)
  }

  /** What a verdict says about how the check ended, or how the probe did. */
  predicate Truthful(s: State, p: nat, v: Verdict)
    requires p < |s.probes|
  {
    match v
    case Healthy(c) =>
      && c < |s.calls| && s.calls[c].done
      && (s.calls[c].result == Some(Returned(None)) || s.calls[c].result == Some(Exited))
    case Unhealthy(c, e) =>
      && c < |s.calls| && s.calls[c].done && e != Timeout
      && (s.calls[c].result == Some(Returned(Some(e))) || (s.calls[c].result == Some(Panicked) && e == Panic))
    case TimedOut(c) =>
      && c < |s.calls|
      && (s.calls[c].ctx == DeadlineExceeded || (s.calls[c].done && s.calls[c].result == Some(Returned(Some(Timeout)))))
    case OwnContext => s.probes[p].cancelled
    case BareContext(_) => false
  }

  /** Every verdict is truthful. A probe is told "healthy" only for a call whose function
      returned nil or ended by `runtime.Goexit`, an error only if the function returned that
      very error or panicked, a timeout only if the deadline passed or the function returned
      one, its own context's error only if it was cancelled, and the bare context error at
      the end of `runCheck` never. */
  lemma VerdictsAreJustified(n: nat, steps: seq<Step>, p: nat)
    requires Feasible(Initial(n), steps) && p < n
    ensures |After(Initial(n), steps).probes| == n
    ensures After(Initial(n), steps).probes[p].pc.Told? ==>
      Truthful(After(Initial(n), steps), p, After(Initial(n), steps).probes[p].pc.verdict)
  {
    RunKeepsInvariant(n, steps);
    ProbesStay(n, steps);
    OwnContextIsCancelled(n, steps, p);
    var s := After(Initial(n), steps);
    assert ProbeInvariant(s, s.probes[p].pc);
    if s.probes[p].pc.Told? && About(s.probes[p].pc.verdict).Some? {
      assert CallInvariant(s.calls[About(s.probes[p].pc.verdict).value]);
    }
  }

  lemma {:induction false} OwnContextIsCancelled(n: nat, steps: seq<Step>, p: nat)
    requires Feasible(Initial(n), steps)
    ensures p < |After(Initial(n), steps).probes| && After(Initial(n), steps).probes[p].pc == Told(OwnContext) ==>
      After(Initial(n), steps).probes[p].cancelled
  {
    if steps != [] {
      OwnContextIsCancelled(n, steps[..|steps| - 1], p);
    }
  }

  lemma {:induction false} ProbesStay(n: nat, steps: seq<Step>)
    requires Feasible(Initial(n), steps)
    ensures |After(Initial(n), steps).probes| == n
  {
    if steps != [] {
      ProbesStay(n, steps[..|steps| - 1]);
    }
  }

  // ----- verdicts are monotone

  /** Probe `q` cannot be told anything about call `c` but that it timed out. */
  predicate Barred(s: State, q: nat, c: nat) {
    && q < |s.probes| && c < |s.calls|
    && (s.probes[q].pc.Told? && About(s.probes[q].pc.verdict) == Some(c) ==> s.probes[q].pc.verdict == TimedOut(c))
    && (|| (s.calls[c].ctx == DeadlineExceeded && s.probes[q].pc != ReadingErr(c))
        || (s.calls[c].done && s.calls[c].err == Some(Timeout)))
  }

  lemma StepKeepsBarred(s: State, step: Step, q: nat, c: nat)
    requires Invariant(s) && Enabled(s, step) && Barred(s, q, c)
    ensures Barred(Apply(s, step), q, c)
  {
    assert CallInvariant(s.calls[c]);
    assert ProbeInvariant(s, s.probes[q].pc);
    StepAdvancesCalls(s, step, c);
  }

  /** Once some probe of a call has reported a timeout, any probe that reads the call's
      context afterwards and is told something about the call is told the same. */
  lemma {:induction false} NoHealthAfterTimeout(n: nat, before: seq<Step>, later: seq<Step>, p: nat, q: nat, c: nat)
    requires Feasible(Initial(n), before) && Feasible(After(Initial(n), before), later)
    requires p < n && q < n && |After(Initial(n), before).probes| == n
    requires After(Initial(n), before).probes[p].pc == Told(TimedOut(c))
    requires var pc := After(Initial(n), before).probes[q].pc; pc != ReadingErr(c) && !pc.Told?
    ensures var t := After(After(Initial(n), before), later);
      && Invariant(t) && Barred(t, q, c)
      && (t.probes[q].pc.Told? && About(t.probes[q].pc.verdict) == Some(c) ==> t.probes[q].pc.verdict == TimedOut(c))
  {
    var s := After(Initial(n), before);
    if later == [] {
      RunKeepsInvariant(n, before);
      assert ProbeInvariant(s, s.probes[p].pc);
    } else {
      var m := |later| - 1;
      NoHealthAfterTimeout(n, before, later[..m], p, q, c);
      StepKeepsInvariant(After(s, later[..m]), later[m]);
      StepKeepsBarred(After(s, later[..m]), later[m], q, c);
    }
  }

  // ----- when probes agree

  predicate ToldAbout(s: State, p: nat, c: nat) {
    p < |s.probes| && s.probes[p].pc.Told? && About(s.probes[p].pc.verdict) == Some(c)
  }

  function VerdictOf(s: State, p: nat): Verdict
    requires p < |s.probes| && s.probes[p].pc.Told?
  {
    s.probes[p].pc.verdict
  }

  /** Unless the deadline has fired, all probes that were told about a call were told the
      same. */
  lemma SameVerdictBeforeDeadline(s: State, p: nat, q: nat, c: nat)
    requires Invariant(s) && ToldAbout(s, p, c) && ToldAbout(s, q, c)
    requires s.calls[c].ctx != DeadlineExceeded
    ensures VerdictOf(s, p) == VerdictOf(s, q)
  {
    assert ProbeInvariant(s, s.probes[p].pc) && ProbeInvariant(s, s.probes[q].pc);
    assert CallInvariant(s.calls[c]);
  }

  /** The probe has joined call `c` and is yet to read its context. */
  predicate YetToRead(s: State, q: nat, c: nat) {
    && q < |s.probes|
    && (s.probes[q].pc == Selecting(c) || s.probes[q].pc == Peeking(c) || s.probes[q].pc == ReadingCtx(c))
  }

  /** The probe has joined call `c` and was not told anything yet. */
  predicate OnCallOf(s: State, q: nat, c: nat) {
    q < |s.probes| && CallOf(s.probes[q].pc) == Some(c)
  }

  predicate Asking(pc: Probe, c: nat) {
    pc == AskingOwn(c) || pc == AskingCall(c)
  }

  /** What a probe that has read the call's context is told. */
  function ByErr(c: nat, err: Option<CheckError>): Verdict {
    match err
    case None => Healthy(c)
    case Some(e) => if e == Timeout then TimedOut(c) else Unhealthy(c, e)
  }

  /** Nobody is told what a check returned once some probe has found the deadline passed
      before the check was done. */
  predicate AskedTooEarly(s: State, q: nat, p: nat, c: nat) {
    q < |s.probes| && p < |s.probes| && Asking(s.probes[q].pc, c) ==>
      && s.probes[p].pc != ReadingErr(c)
      && (s.probes[p].pc.Told? && About(s.probes[p].pc.verdict) == Some(c) ==> s.probes[p].pc.verdict == TimedOut(c))
  }

  lemma StepKeepsAskedTooEarly(s: State, step: Step, q: nat, p: nat, c: nat)
    requires Invariant(s) && Enabled(s, step) && AskedTooEarly(s, q, p, c)
    ensures AskedTooEarly(Apply(s, step), q, p, c)
  {
    if q < |s.probes| && p < |s.probes| {
      assert ProbeInvariant(s, s.probes[q].pc) && ProbeInvariant(s, s.probes[p].pc);
    }
  }

  lemma {:induction false} AskersKnow(n: nat, steps: seq<Step>, q: nat, p: nat, c: nat)
    requires Feasible(Initial(n), steps)
    ensures AskedTooEarly(After(Initial(n), steps), q, p, c)
  {
    if steps != [] {
      var m := |steps| - 1;
      AskersKnow(n, steps[..m], q, p, c);
      RunKeepsInvariant(n, steps[..m]);
      StepKeepsAskedTooEarly(After(Initial(n), steps[..m]), steps[m], q, p, c);
    }
  }

  /** Some continuation tells `q` about call `c` something else than `p` was told. */
  ghost predicate MayDiffer(s: State, p: nat, q: nat, c: nat)
    requires ToldAbout(s, p, c)
  {
    exists later: seq<Step> :: Feasible(s, later) && Differs(After(s, later), VerdictOf(s, p), q, c)
  }

  predicate Differs(t: State, v: Verdict, q: nat, c: nat) {
    ToldAbout(t, q, c) && VerdictOf(t, q) != v
  }

  /** A verdict is final, and so is a call context that was cancelled. */
  lemma {:induction false} Settled(s: State, later: seq<Step>, p: nat, c: nat)
    requires Invariant(s) && Feasible(s, later) && ToldAbout(s, p, c)
    ensures var t := After(s, later);
      && Invariant(t) && ToldAbout(t, p, c) && VerdictOf(t, p) == VerdictOf(s, p)
      && (s.calls[c].ctx == Canceled ==> t.calls[c].ctx == Canceled)
  {
    assert ProbeInvariant(s, s.probes[p].pc);
    if later != [] {
      var m := |later| - 1;
      Settled(s, later[..m], p, c);
      var u := After(s, later[..m]);
      assert ProbeInvariant(u, u.probes[p].pc);
      StepKeepsInvariant(u, later[m]);
      StepAdvancesCalls(u, later[m], c);
    }
  }

  /** A probe that has read the context is told what the check returned, come what may. */
  predicate BoundByErr(s: State, q: nat, c: nat, err: Option<CheckError>) {
    && q < |s.probes| && c < |s.calls| && s.calls[c].done && s.calls[c].err == err
    && (s.probes[q].pc == ReadingErr(c) || s.probes[q].pc == Told(ByErr(c, err)))
  }

  lemma StepKeepsBoundByErr(s: State, step: Step, q: nat, c: nat, err: Option<CheckError>)
    requires Invariant(s) && Enabled(s, step) && BoundByErr(s, q, c, err)
    ensures BoundByErr(Apply(s, step), q, c, err)
  {
    StepAdvancesCalls(s, step, c);
  }

  lemma {:induction false} StaysBoundByErr(s: State, later: seq<Step>, q: nat, c: nat, err: Option<CheckError>)
    requires Invariant(s) && Feasible(s, later) && BoundByErr(s, q, c, err)
    ensures Invariant(After(s, later)) && BoundByErr(After(s, later), q, c, err)
  {
    if later != [] {
      var m := |later| - 1;
      StaysBoundByErr(s, later[..m], q, c, err);
      StepKeepsInvariant(After(s, later[..m]), later[m]);
      StepKeepsBoundByErr(After(s, later[..m]), later[m], q, c, err);
    }
  }

  /** Steps after which a probe that is yet to read a finished call is told of a timeout. */
  lemma ReaderTimesOut(s: State, q: nat, c: nat) returns (later: seq<Step>)
    requires YetToRead(s, q, c) && c < |s.calls| && s.calls[c].done && s.calls[c].ctx != Canceled
    ensures Feasible(s, later) && ToldAbout(After(s, later), q, c)
    ensures VerdictOf(After(s, later), q) == TimedOut(c)
  {
    var t := s;
    later := [];
    if s.calls[c].ctx == Alive {
      later, t := Extend(s, later, t, DeadlineFires(c));
    }
    if s.probes[q].pc == Selecting(c) {
      later, t := Extend(s, later, t, SeeDone(q));
    } else if s.probes[q].pc == Peeking(c) {
      later, t := Extend(s, later, t, Peek(q));
    }
    later, t := Extend(s, later, t, ReadCtx(q));
  }

  /** What decides whether probe `q` may be told something else than `v` about call `c`. */
  predicate Undecided(s: State, v: Verdict, q: nat, c: nat)
    requires OnCallOf(s, q, c) && c < |s.calls|
  {
    if s.probes[q].pc == ReadingErr(c) then v == TimedOut(c) && s.calls[c].err != Some(Timeout)
    else if Asking(s.probes[q].pc, c) then false
    else v != TimedOut(c) && s.calls[c].ctx != Canceled
  }

  /** Agreement, settled for every probe that has joined a call some probe was told about.
      A probe that has read the call's context may be told something else if and only if
      the other was told of a timeout and the check did not return one. A probe that found
      the deadline passed before the check was done may not. Any other may if and only if
      the first was not told of a timeout and the worker has not yet cancelled the call's
      context. */
  lemma ProbesMayDifferExactlyWhen(n: nat, steps: seq<Step>, p: nat, q: nat, c: nat)
    requires Feasible(Initial(n), steps)
    requires ToldAbout(After(Initial(n), steps), p, c) && OnCallOf(After(Initial(n), steps), q, c)
    ensures c < |After(Initial(n), steps).calls|
    ensures MayDiffer(After(Initial(n), steps), p, q, c)
      <==> Undecided(After(Initial(n), steps), VerdictOf(After(Initial(n), steps), p), q, c)
  {
    var s := After(Initial(n), steps);
    RunKeepsInvariant(n, steps);
    assert ProbeInvariant(s, s.probes[p].pc) && ProbeInvariant(s, s.probes[q].pc);
    if Undecided(s, VerdictOf(s, p), q, c) {
      var later: seq<Step>;
      if s.probes[q].pc == ReadingErr(c) {
        var t: State;
        later, t := Extend(s, [], s, ReadErr(q));
      } else {
        later := ReaderTimesOut(s, q, c);
      }
      assert Differs(After(s, later), VerdictOf(s, p), q, c);
    } else {
      forall later: seq<Step> | Feasible(s, later)
        ensures !Differs(After(s, later), VerdictOf(s, p), q, c)
      {
        NeverDiffers(n, steps, later, p, q, c);
      }
    }
  }

  lemma NeverDiffers(n: nat, steps: seq<Step>, later: seq<Step>, p: nat, q: nat, c: nat)
    requires Feasible(Initial(n), steps) && Feasible(After(Initial(n), steps), later)
    requires ToldAbout(After(Initial(n), steps), p, c) && OnCallOf(After(Initial(n), steps), q, c)
    requires c < |After(Initial(n), steps).calls|
    requires !Undecided(After(Initial(n), steps), VerdictOf(After(Initial(n), steps), p), q, c)
    ensures !Differs(After(After(Initial(n), steps), later), VerdictOf(After(Initial(n), steps), p), q, c)
  {
    var s := After(Initial(n), steps);
    var t := After(s, later);
    RunKeepsInvariant(n, steps);
    ProbesStay(n, steps);
    AskersKnow(n, steps, q, p, c);
    if s.probes[q].pc == ReadingErr(c) {
      assert ProbeInvariant(s, s.probes[q].pc) && ProbeInvariant(s, s.probes[p].pc);
      StaysBoundByErr(s, later, q, c, s.calls[c].err);
    } else if VerdictOf(s, p) == TimedOut(c) {
      NoHealthAfterTimeout(n, steps, later, p, q, c);
    } else {
      Settled(s, later, p, c);
      if ToldAbout(t, q, c) {
        SameVerdictBeforeDeadline(t, p, q, c);
      }
    }
  }

  /** For instance: of two probes of one successful call the first is told it was healthy
      and the second, after the deadline, that it timed out. */
  lemma ProbesMayDisagree() returns (steps: seq<Step>)
    ensures Feasible(Initial(2), steps)
    ensures After(Initial(2), steps).probes == [Prober(Told(Healthy(0)), false), Prober(Told(TimedOut(0)), false)]
  {
    var s: State;
    steps, s := CallCompletes(Returned(None));
    steps, s := Extend(Initial(2), steps, s, SeeDone(0));
    steps, s := Extend(Initial(2), steps, s, ReadCtx(0));
    steps, s := Extend(Initial(2), steps, s, ReadErr(0));
    steps, s := Extend(Initial(2), steps, s, DeadlineFires(0));
    steps, s := Extend(Initial(2), steps, s, SeeDone(1));
    steps, s := Extend(Initial(2), steps, s, ReadCtx(1));
  }

  // ----- what a probe may be told

  /** The check ended without an error: it returned nil, or ended by `runtime.Goexit`. */
  predicate EndedWell(result: FnResult) {
    result == Returned(None) || result == Exited
  }

  /** The check ended with this error: its own, or that of its panic. */
  predicate EndedWith(result: FnResult, e: CheckError) {
    result == Returned(Some(e)) || (result == Panicked && e == Panic)
  }

  /** The probe has read the call's context already, or is yet to and the deadline has not
      passed. */
  predicate SeesResult(s: State, q: nat, c: nat)
    requires OnCallOf(s, q, c) && c < |s.calls|
  {
    s.probes[q].pc == ReadingErr(c) || (YetToRead(s, q, c) && s.calls[c].ctx != DeadlineExceeded)
  }

  /** What decides whether probe `q`, which has joined call `c`, may still be told `v`. */
  predicate Possible(s: State, q: nat, c: nat, v: Verdict)
    requires OnCallOf(s, q, c) && c < |s.calls|
  {
    var call, pc := s.calls[c], s.probes[q].pc;
    match v
    case Healthy(d) => d == c && SeesResult(s, q, c) && (call.result.None? || EndedWell(call.result.value))
    case Unhealthy(d, e) =>
      d == c && e != Timeout && SeesResult(s, q, c) && (call.result.None? || EndedWith(call.result.value, e))
    case TimedOut(d) =>
      && d == c
      && (|| pc == AskingCall(c)
          || (pc == AskingOwn(c) && !s.probes[q].cancelled)
          || (YetToRead(s, q, c) && call.ctx != Canceled)
          || (SeesResult(s, q, c) && call.result.Some? && EndedWith(call.result.value, Timeout)))
    case OwnContext => pc == Selecting(c) || pc == AskingOwn(c) || (pc == Peeking(c) && !call.done)
    case BareContext(_) => false
  }

  ghost predicate MayBeTold(s: State, q: nat, v: Verdict) {
    exists later: seq<Step> :: Feasible(s, later) && IsTold(After(s, later), q, v)
  }

  predicate IsTold(t: State, q: nat, v: Verdict) {
    q < |t.probes| && t.probes[q].pc == Told(v)
  }

  /** The probe has been told `v`, or may be. */
  predicate Open(s: State, q: nat, c: nat, v: Verdict) {
    && q < |s.probes| && c < |s.calls|
    && (s.probes[q].pc == Told(v) || (OnCallOf(s, q, c) && Possible(s, q, c, v)))
  }

  /** Steps that do not move the probe open nothing. */
  lemma OthersOpenNothing(s: State, t: State, q: nat, c: nat, v: Verdict)
    requires q < |s.probes| && q < |t.probes| && c < |s.calls| && c < |t.calls|
    requires s.probes[q].pc == t.probes[q].pc && (s.probes[q].cancelled ==> t.probes[q].cancelled)
    requires CallInvariant(s.calls[c]) && ProbeInvariant(s, s.probes[q].pc)
    requires Later(s.calls[c], t.calls[c]) && Open(t, q, c, v)
    ensures Open(s, q, c, v)
  {
  }

  /** Nor does a step of the probe itself. */
  lemma OwnStepOpensNothing(s: State, step: Step, q: nat, c: nat, v: Verdict)
    requires Enabled(s, step) && OnCallOf(s, q, c) && c < |s.calls|
    requires CallInvariant(s.calls[c]) && ProbeInvariant(s, s.probes[q].pc)
    requires Apply(s, step).calls == s.calls && Apply(s, step).probes[q].pc != s.probes[q].pc
    requires Open(Apply(s, step), q, c, v)
    ensures Open(s, q, c, v)
  {
    var pc := s.probes[q].pc;
    assert Apply(s, step).probes[q].cancelled == s.probes[q].cancelled;
    if pc.Selecting? {
      assert step == SeeDone(q) || step == SeeOwnContext(q) || step == SeeCallContext(q);
    } else if pc.Peeking? {
      assert step == Peek(q);
    } else if pc.AskingOwn? {
      assert step == AskOwn(q);
    } else if pc.AskingCall? {
      assert step == AskCall(q);
    } else if pc.ReadingCtx? {
      assert step == ReadCtx(q);
    } else {
      assert step == ReadErr(q);
    }
  }

  /** What is possible after a step was possible before. */
  lemma StepOpensNothing(s: State, step: Step, q: nat, c: nat, v: Verdict)
    requires Invariant(s) && Enabled(s, step) && q < |s.probes| && c < |s.calls|
    requires OnCallOf(s, q, c) || s.probes[q].pc.Told?
    requires Open(Apply(s, step), q, c, v)
    ensures Open(s, q, c, v)
  {
    assert CallInvariant(s.calls[c]) && ProbeInvariant(s, s.probes[q].pc);
    StepAdvancesCalls(s, step, c);
    StepMovesOne(s, step, q);
    if Apply(s, step).probes[q].pc == s.probes[q].pc {
      OthersOpenNothing(s, Apply(s, step), q, c, v);
    } else {
      OwnStepOpensNothing(s, step, q, c, v);
    }
  }

  lemma StepMovesOne(s: State, step: Step, q: nat)
    requires Enabled(s, step) && q < |s.probes|
    ensures |Apply(s, step).probes| == |s.probes|
    ensures s.probes[q].pc.Told? ==> Apply(s, step).probes[q].pc == s.probes[q].pc
    ensures s.probes[q].cancelled ==> Apply(s, step).probes[q].cancelled
    ensures CallOf(s.probes[q].pc).Some? && Apply(s, step).probes[q].pc != s.probes[q].pc ==>
      Apply(s, step).calls == s.calls
  {
  }

  lemma {:induction false} StaysOnCall(s: State, later: seq<Step>, q: nat, c: nat)
    requires Invariant(s) && Feasible(s, later) && c < |s.calls| && OnCallOf(s, q, c)
    ensures var t := After(s, later);
      && Invariant(t) && c < |t.calls| && q < |t.probes| && (OnCallOf(t, q, c) || t.probes[q].pc.Told?)
  {
    if later != [] {
      var m := |later| - 1;
      StaysOnCall(s, later[..m], q, c);
      StepKeepsInvariant(After(s, later[..m]), later[m]);
      StepAdvancesCalls(After(s, later[..m]), later[m], c);
    }
  }

  lemma {:induction false} RunOpensNothing(s: State, later: seq<Step>, q: nat, c: nat, v: Verdict)
    requires Invariant(s) && Feasible(s, later) && c < |s.calls| && OnCallOf(s, q, c)
    requires Open(After(s, later), q, c, v)
    ensures Possible(s, q, c, v)
  {
    if later != [] {
      var m := |later| - 1;
      StaysOnCall(s, later[..m], q, c);
      StepOpensNothing(After(s, later[..m]), later[m], q, c, v);
      RunOpensNothing(s, later[..m], q, c, v);
    }
  }

  /** The worker goes on until it has closed `done`, the check ending with `result` if it has
      not ended yet; no probe moves. */
  lemma WorkerCloses(s: State, c: nat, result: FnResult) returns (later: seq<Step>, t: State)
    requires Invariant(s) && c < |s.calls| && (s.calls[c].result.None? || s.calls[c].result == Some(result))
    ensures Feasible(s, later) && After(s, later) == t && t.probes == s.probes && Invariant(t)
    ensures c < |t.calls| && t.calls[c].done && t.calls[c].result == Some(result) && t.calls[c].ctx == s.calls[c].ctx
  {
    t := s;
    later := [];
    assert CallInvariant(s.calls[c]);
    if t.calls[c].worker == Running {
      StepKeepsInvariant(t, FnReturns(c, result));
      later, t := Extend(s, later, t, FnReturns(c, result));
    }
    if t.calls[c].worker.Writing? {
      StepKeepsInvariant(t, WriteErr(c));
      later, t := Extend(s, later, t, WriteErr(c));
    }
    if t.calls[c].worker == Closing {
      StepKeepsInvariant(t, CloseDone(c));
      later, t := Extend(s, later, t, CloseDone(c));
    }
  }

  /** The probe finds the call done, and goes on to read its context. */
  lemma FindsDone(s: State, past: seq<Step>, t: State, q: nat, c: nat) returns (later: seq<Step>, u: State)
    requires Feasible(s, past) && After(s, past) == t
    requires YetToRead(t, q, c) && c < |t.calls| && t.calls[c].done
    requires t.probes[q].pc == Peeking(c) ==> t.calls[c].ctx != Alive
    ensures Feasible(s, later) && After(s, later) == u && u.calls == t.calls
    ensures q < |u.probes| && u.probes[q].pc == ReadingCtx(c)
  {
    later, u := past, t;
    if t.probes[q].pc == Selecting(c) {
      later, u := Extend(s, later, u, SeeDone(q));
    } else if t.probes[q].pc == Peeking(c) {
      later, u := Extend(s, later, u, Peek(q));
    }
  }

  /** The probe is told what the check ended with. */
  lemma ReaderIsToldResult(s: State, q: nat, c: nat, result: FnResult, v: Verdict) returns (later: seq<Step>)
    requires Invariant(s) && c < |s.calls| && OnCallOf(s, q, c) && SeesResult(s, q, c)
    requires s.calls[c].result.None? || s.calls[c].result == Some(result)
    requires if EndedWell(result) then v == Healthy(c)
             else if EndedWith(result, Timeout) then v == TimedOut(c)
             else exists e :: EndedWith(result, e) && v == Unhealthy(c, e)
    ensures Feasible(s, later) && IsTold(After(s, later), q, v)
  {
    var t: State;
    assert ProbeInvariant(s, s.probes[q].pc);
    later, t := WorkerCloses(s, c, result);
    assert CallInvariant(t.calls[c]);
    if s.probes[q].pc != ReadingErr(c) {
      later, t := FindsDone(s, later, t, q, c);
      later, t := Extend(s, later, t, ReadCtx(q));
    }
    later, t := Extend(s, later, t, ReadErr(q));
  }

  /** The probe is told that the call timed out, though the check has not said so. */
  lemma JoinerTimesOut(s: State, q: nat, c: nat) returns (later: seq<Step>)
    requires Invariant(s) && c < |s.calls| && OnCallOf(s, q, c)
    requires || s.probes[q].pc == AskingCall(c) || (s.probes[q].pc == AskingOwn(c) && !s.probes[q].cancelled)
             || (YetToRead(s, q, c) && s.calls[c].ctx != Canceled)
    ensures Feasible(s, later) && IsTold(After(s, later), q, TimedOut(c))
  {
    var t: State;
    assert ProbeInvariant(s, s.probes[q].pc);
    if YetToRead(s, q, c) {
      var result := if s.calls[c].result.Some? then s.calls[c].result.value else Exited;
      later, t := WorkerCloses(s, c, result);
      if t.calls[c].ctx == Alive {
        later, t := Extend(s, later, t, DeadlineFires(c));
      }
      later, t := FindsDone(s, later, t, q, c);
      later, t := Extend(s, later, t, ReadCtx(q));
    } else {
      later, t := [], s;
      if s.probes[q].pc == AskingOwn(c) {
        later, t := Extend(s, later, t, AskOwn(q));
      }
      later, t := Extend(s, later, t, AskCall(q));
    }
  }

  /** The probe is cancelled and told so. */
  lemma JoinerIsCancelled(s: State, q: nat, c: nat) returns (later: seq<Step>)
    requires Invariant(s) && c < |s.calls| && OnCallOf(s, q, c) && Possible(s, q, c, OwnContext)
    ensures Feasible(s, later) && IsTold(After(s, later), q, OwnContext)
  {
    var t: State;
    assert ProbeInvariant(s, s.probes[q].pc);
    later, t := Extend(s, [], s, CancelProbe(q));
    if s.probes[q].pc == Selecting(c) {
      later, t := Extend(s, later, t, SeeOwnContext(q));
    } else {
      if s.probes[q].pc == Peeking(c) {
        later, t := Extend(s, later, t, Peek(q));
      }
      later, t := Extend(s, later, t, AskOwn(q));
    }
  }

  lemma PossibleIsTold(s: State, q: nat, c: nat, v: Verdict) returns (later: seq<Step>)
    requires Invariant(s) && c < |s.calls| && OnCallOf(s, q, c) && Possible(s, q, c, v)
    ensures Feasible(s, later) && IsTold(After(s, later), q, v)
  {
    var ended := s.calls[c].result;
    assert ProbeInvariant(s, s.probes[q].pc) && CallInvariant(s.calls[c]);
    if v == Healthy(c) {
      later := ReaderIsToldResult(s, q, c, if ended.Some? then ended.value else Returned(None), v);
    } else if v.Unhealthy? {
      var result := if ended.Some? then ended.value else Returned(Some(v.err));
      assert EndedWith(result, v.err);
      later := ReaderIsToldResult(s, q, c, result, v);
    } else if v == OwnContext {
      later := JoinerIsCancelled(s, q, c);
    } else if SeesResult(s, q, c) && ended.Some? && EndedWith(ended.value, Timeout) {
      later := ReaderIsToldResult(s, q, c, ended.value, v);
    } else {
      later := JoinerTimesOut(s, q, c);
    }
  }

  /** What a probe that has joined a call may still be told, in every reachable state and for
      every verdict: exactly what is possible. */
  lemma ToldExactlyWhen(n: nat, steps: seq<Step>, q: nat, c: nat, v: Verdict)
    requires Feasible(Initial(n), steps) && OnCallOf(After(Initial(n), steps), q, c)
    ensures c < |After(Initial(n), steps).calls|
    ensures MayBeTold(After(Initial(n), steps), q, v) <==> Possible(After(Initial(n), steps), q, c, v)
  {
    var s := After(Initial(n), steps);
    RunKeepsInvariant(n, steps);
    assert ProbeInvariant(s, s.probes[q].pc);
    if Possible(s, q, c, v) {
      var later := PossibleIsTold(s, q, c, v);
      assert IsTold(After(s, later), q, v);
    }
    forall later: seq<Step> | Feasible(s, later) && IsTold(After(s, later), q, v)
      ensures Possible(s, q, c, v)
    {
      StaysOnCall(s, later, q, c);
      RunOpensNothing(s, later, q, c, v);
    }
  }

  /** So a check that did not return nil may be reported healthy if and only if it ended by
      `runtime.Goexit` and the probe does not get to see the deadline passed. */
  lemma ExitReadsAsHealthyExactlyWhen(n: nat, steps: seq<Step>, q: nat, c: nat)
    requires Feasible(Initial(n), steps) && OnCallOf(After(Initial(n), steps), q, c)
    ensures c < |After(Initial(n), steps).calls|
    ensures var s := After(Initial(n), steps);
      var call := s.calls[c];
      call.result.Some? && call.result != Some(Returned(None)) ==>
        (MayBeTold(s, q, Healthy(c)) <==>
           && call.result == Some(Exited)
           && (s.probes[q].pc == ReadingErr(c) || (YetToRead(s, q, c) && call.ctx != DeadlineExceeded)))
  {
    ToldExactlyWhen(n, steps, q, c, Healthy(c));
  }

  /** For instance: a check that ends by `runtime.Goexit` is reported healthy. */
  lemma ExitReadsAsHealthy() returns (steps: seq<Step>)
    ensures Feasible(Initial(2), steps)
    ensures After(Initial(2), steps).probes == [Prober(Told(Healthy(0)), false), Prober(Selecting(0), false)]
    ensures |After(Initial(2), steps).calls| == 1 && After(Initial(2), steps).calls[0].result == Some(Exited)
  {
    var s: State;
    steps, s := CallCompletes(Exited);
    steps, s := Extend(Initial(2), steps, s, SeeDone(0));
    steps, s := Extend(Initial(2), steps, s, ReadCtx(0));
    steps, s := Extend(Initial(2), steps, s, ReadErr(0));
  }

  lemma CallCompletes(result: FnResult) returns (steps: seq<Step>, s: State)
    ensures Feasible(Initial(2), steps) && After(Initial(2), steps) == s
    ensures s == State(Some(0), [Call(Finishing, Alive, ErrOf(result), true, Some(result))],
                       [Prober(Selecting(0), false), Prober(Selecting(0), false)])
  {
    steps, s := [], Initial(2);
    steps, s := Extend(Initial(2), steps, s, StartOrJoin(0));
    steps, s := Extend(Initial(2), steps, s, StartOrJoin(1));
    steps, s := Extend(Initial(2), steps, s, FnReturns(0, result));
    steps, s := Extend(Initial(2), steps, s, WriteErr(0));
    steps, s := Extend(Initial(2), steps, s, CloseDone(0));
  }

  lemma Extend(from: State, steps: seq<Step>, s: State, step: Step) returns (longer: seq<Step>, t: State)
    requires Feasible(from, steps) && After(from, steps) == s && Enabled(s, step)
    ensures Feasible(from, longer) && After(from, longer) == t == Apply(s, step)
  {
    longer := steps + [step];
    assert longer[..|longer| - 1] == steps;
    t := Apply(s, step);
  }

  // ----- a probe's cancellation is its own affair

  /** Steps that involve one probe only, after it has joined: its cancellation and its
      reads. They change nothing else. */
  predicate PrivateTo(step: Step, p: nat) {
    match step
    case SeeDone(q) => p == q
    case SeeOwnContext(q) => p == q
    case SeeCallContext(q) => p == q
    case Peek(q) => p == q
    case AskOwn(q) => p == q
    case AskCall(q) => p == q
    case ReadCtx(q) => p == q
    case ReadErr(q) => p == q
    case CancelProbe(q) => p == q
    case _ => false
  }

  /** The same run without the probe's cancellation: it joins, if it did, and stays put. */
  function Without(steps: seq<Step>, p: nat): seq<Step> {
    if steps == [] then []
    else
      var last := steps[|steps| - 1];
      var rest := Without(steps[..|steps| - 1], p);
      if PrivateTo(last, p) then rest else rest + [last]
  }

  /** Two states that differ at most in probe `p`, which in the first has not been
      cancelled and has joined whenever it has in the second. */
  predicate SameToOthers(s: State, t: State, p: nat) {
    && s.current == t.current && s.calls == t.calls && |s.probes| == |t.probes|
    && (forall q | 0 <= q < |s.probes| && q != p :: s.probes[q] == t.probes[q])
    && (p < |s.probes| ==> !s.probes[p].cancelled && (s.probes[p].pc == Arriving <==> t.probes[p].pc == Arriving))
  }

  lemma StepSameToOthers(s: State, t: State, step: Step, p: nat)
    requires SameToOthers(s, t, p) && Enabled(t, step)
    ensures PrivateTo(step, p) ==> SameToOthers(s, Apply(t, step), p)
    ensures !PrivateTo(step, p) ==> Enabled(s, step) && SameToOthers(Apply(s, step), Apply(t, step), p)
  {
  }

  /** A probe's own cancellation never changes what anybody else can be told: take the
      cancellation out of any run, and the calls and all other probes end up the same. */
  lemma {:induction false} CancellationIsPrivate(n: nat, steps: seq<Step>, p: nat)
    requires Feasible(Initial(n), steps)
    ensures Feasible(Initial(n), Without(steps, p))
    ensures SameToOthers(After(Initial(n), Without(steps, p)), After(Initial(n), steps), p)
  {
    if steps != [] {
      var m := |steps| - 1;
      CancellationIsPrivate(n, steps[..m], p);
      var s := After(Initial(n), Without(steps[..m], p));
      StepSameToOthers(s, After(Initial(n), steps[..m]), steps[m], p);
      if !PrivateTo(steps[m], p) {
        assert Without(steps, p)[..|Without(steps, p)| - 1] == Without(steps[..m], p);
      }
    }
  }
}
