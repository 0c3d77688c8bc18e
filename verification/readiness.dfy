/** Readiness of `HTTPRuntime`: the one-way `started` and `shuttingDown` flags, the callers of
    Startup and of BeginShutdown or Shutdown, and the readiness evaluations between them.

    Every load and store of a flag is a step, and any caller may take the next one. */
module Readiness {
  import opened Wrappers

  /** `HTTPRuntime.Startup`, by what it does next: the hooks, then MarkStarted, or a rollback
      that marks shutdown. */
  datatype StarterPc = NextHook(i: nat) | MarkStarted | Rollback | Started | RolledBack

  /** `ran` records the outcomes of the hooks. */
  datatype Starter = Starter(pc: StarterPc, ran: seq<bool>)

  /** `BeginShutdown`, or the head of `Shutdown`. */
  datatype Stopper = Calling | Stored | Returned

  /** `evaluate(ctx, "ready")`, by what it does next. */
  datatype ProbePc = Idle | LoadStarted | LoadShutdown | Check(k: nat, healthy: bool) | Reported(ok: bool)

  /** `late` records whether some BeginShutdown, called by a stopper or by the rollback of a
      failed Startup, had returned when the evaluation started; `up`, whether the runtime had
      been marked started by then; `seen`, the outcomes of its checks. */
  datatype Probe = Probe(pc: ProbePc, late: bool, up: bool, seen: seq<bool>)

  /** `hooks` startup hooks and `checks` readiness checks are registered. */
  datatype State = State(hooks: nat, checks: nat, started: bool, shuttingDown: bool,
                         starters: seq<Starter>, stoppers: seq<Stopper>, probes: seq<Probe>)

  /** `ok` is the outcome of the hook or check, where the step runs one. */
  datatype Step = StepStarter(t: nat, ok: bool) | StepStopper(t: nat) | StepProbe(t: nat, ok: bool)

  function Initial(hooks: nat, checks: nat, starters: nat, stoppers: nat, probes: nat): State {
    State(hooks, checks, false, false,
          seq(starters, _ => Starter(NextHook(0), [])), seq(stoppers, _ => Calling),
          seq(probes, _ => Probe(Idle, false, false, [])))
  }

  predicate Enabled(s: State, step: Step) {
    match step
    case StepStarter(t, _) => t < |s.starters| && !s.starters[t].pc.Started? && !s.starters[t].pc.RolledBack?
    case StepStopper(t) => t < |s.stoppers| && s.stoppers[t] != Returned
    case StepProbe(t, _) => t < |s.probes| && !s.probes[t].pc.Reported?
  }

  predicate SomeReturned(s: State) {
    || (exists i | 0 <= i < |s.stoppers| :: s.stoppers[i] == Returned)
    || (exists i | 0 <= i < |s.starters| :: s.starters[i].pc == RolledBack)
  }

  function MoveStarter(s: State, t: nat, ok: bool): State
    requires t < |s.starters|
  {
    var a := s.starters[t];
    match a.pc
    case NextHook(i) =>
      if i >= s.hooks then s.(starters := s.starters[t := a.(pc := MarkStarted)])
      else
        var next := if ok then NextHook(i + 1) else Rollback;
        s.(starters := s.starters[t := Starter(next, a.ran + [ok])])
    case MarkStarted => s.(started := true, starters := s.starters[t := a.(pc := Started)])
    case Rollback => s.(shuttingDown := true, starters := s.starters[t := a.(pc := RolledBack)])
    case Started => s
    case RolledBack => s
  }

  function MoveStopper(s: State, t: nat): State
    requires t < |s.stoppers|
  {
    match s.stoppers[t]
    case Calling => s.(shuttingDown := true, stoppers := s.stoppers[t := Stored])
    case Stored => s.(stoppers := s.stoppers[t := Returned])
    case Returned => s
  }

  function NextProbe(s: State, p: Probe, ok: bool): Probe {
    match p.pc
    case Idle => Probe(LoadStarted, SomeReturned(s), s.started, [])
    case LoadStarted => p.(pc := if s.started then LoadShutdown else Reported(false))
    case LoadShutdown => p.(pc := if s.shuttingDown then Reported(false) else Check(0, true))
    case Check(k, healthy) =>
      if k >= s.checks then p.(pc := Reported(healthy))
      else p.(pc := Check(k + 1, healthy && ok), seen := p.seen + [ok])
    case Reported(_) => p
  }

  function Apply(s: State, step: Step): State
    requires Enabled(s, step)
  {
    match step
    case StepStarter(t, ok) => MoveStarter(s, t, ok)
    case StepStopper(t) => MoveStopper(s, t)
    case StepProbe(t, ok) => s.(probes := s.probes[t := NextProbe(s, s.probes[t], ok)])
  }

  predicate Feasible(s: State, steps: seq<Step>)
    decreases |steps|, 0
  {
    steps == [] ||
    (Feasible(s, steps[..|steps| - 1]) && Enabled(After(s, steps[..|steps| - 1]), steps[|steps| - 1]))
  }

  function After(s: State, steps: seq<Step>): State
    requires Feasible(s, steps)
    decreases |steps|, 1
  {
    if steps == [] then s else Apply(After(s, steps[..|steps| - 1]), steps[|steps| - 1])
  }

  // ----- what every step keeps

  predicate AllTrue(outcomes: seq<bool>) {
    forall i | 0 <= i < |outcomes| :: outcomes[i]
  }

  predicate StarterOk(s: State, a: Starter) {
    && (a.pc.NextHook? ==> a.pc.i == |a.ran| <= s.hooks && AllTrue(a.ran))
    && (a.pc.MarkStarted? || a.pc.Started? ==> |a.ran| == s.hooks && AllTrue(a.ran))
    && (a.pc.Rollback? || a.pc.RolledBack? ==>
          0 < |a.ran| <= s.hooks && !a.ran[|a.ran| - 1] && AllTrue(a.ran[..|a.ran| - 1]))
    && (a.pc.Started? ==> s.started)
    && (a.pc.RolledBack? ==> s.shuttingDown)
  }

  predicate ProbeOk(s: State, p: Probe) {
    && (p.late ==> s.shuttingDown) && (p.up ==> s.started)
    && (p.pc.Idle? ==> !p.late && !p.up)
    && (p.pc.Idle? || p.pc.LoadStarted? || p.pc.LoadShutdown? ==> p.seen == [])
    && (p.pc.LoadShutdown? || p.pc.Check? || p.pc == Reported(true) ==> s.started)
    && (p.pc.Check? || p.pc == Reported(true) ==> !p.late)
    && (p.pc.Check? ==> p.pc.k == |p.seen| <= s.checks && (p.pc.healthy <==> AllTrue(p.seen)))
    && (p.pc.Reported? ==>
          || (|p.seen| == s.checks && (p.pc.ok <==> AllTrue(p.seen)))
          || (!p.pc.ok && p.seen == [] && (!p.up || s.shuttingDown)))
  }

  /** Some Startup call has run all its hooks without an error and marked the runtime. */
  predicate SomeStarted(s: State) {
    exists i | 0 <= i < |s.starters| ::
      s.starters[i].pc == Started && |s.starters[i].ran| == s.hooks && AllTrue(s.starters[i].ran)
  }

  /** Some Startup call has had a hook fail. */
  predicate SomeFailed(s: State) {
    exists i | 0 <= i < |s.starters| :: !AllTrue(s.starters[i].ran)
  }

  /** Some caller asked for a shutdown. */
  predicate SomeStopping(s: State) {
    exists i | 0 <= i < |s.stoppers| :: s.stoppers[i] != Calling
  }

  predicate Invariant(s: State) {
    && (forall i | 0 <= i < |s.starters| :: StarterOk(s, s.starters[i]))
    && (forall i | 0 <= i < |s.stoppers| && s.stoppers[i] != Calling :: s.shuttingDown)
    && (forall i | 0 <= i < |s.probes| :: ProbeOk(s, s.probes[i]))
    && (s.started ==> SomeStarted(s))
    && (s.shuttingDown ==> SomeStopping(s) || SomeFailed(s))
  }

  lemma ProbeStaysOk(s: State, u: State, p: Probe)
    requires ProbeOk(s, p) && u.checks == s.checks && (s.started ==> u.started) && (s.shuttingDown ==> u.shuttingDown)
    ensures ProbeOk(u, p)
  {
  }

  lemma ProbeStepKeeps(s: State, p: Probe, ok: bool)
    requires ProbeOk(s, p) && (SomeReturned(s) ==> s.shuttingDown)
    ensures ProbeOk(s, NextProbe(s, p, ok))
  {
    if p.pc.Check? && p.pc.k < s.checks {
      AllTrueSnoc(p.seen, ok);
    }
  }

  lemma AllTrueSnoc(outcomes: seq<bool>, ok: bool)
    ensures AllTrue(outcomes + [ok]) <==> AllTrue(outcomes) && ok
  {
    assert (outcomes + [ok])[|outcomes|] == ok;
    if AllTrue(outcomes + [ok]) {
      forall i | 0 <= i < |outcomes|
        ensures outcomes[i]
      {
        assert (outcomes + [ok])[i] == outcomes[i];
      }
    }
  }

  lemma StarterMoves(s: State, t: nat, ok: bool)
    requires Invariant(s) && Enabled(s, StepStarter(t, ok))
    ensures var u := MoveStarter(s, t, ok);
      && u.starters == s.starters[t := u.starters[t]] && StarterOk(u, u.starters[t])
      && (!AllTrue(s.starters[t].ran) ==> !AllTrue(u.starters[t].ran))
      && (s.starters[t].pc == Rollback ==> !AllTrue(u.starters[t].ran))
  {
    var a := s.starters[t];
    assert StarterOk(s, a);
    AllTrueSnoc(a.ran, ok);
    if a.pc.NextHook? && a.pc.i < s.hooks {
      assert (a.ran + [ok])[..|a.ran|] == a.ran;
    }
  }

  lemma StarterKeepsStarted(s: State, t: nat, ok: bool)
    requires Invariant(s) && Enabled(s, StepStarter(t, ok))
    ensures MoveStarter(s, t, ok).started ==> SomeStarted(MoveStarter(s, t, ok))
  {
    var u := MoveStarter(s, t, ok);
    StarterMoves(s, t, ok);
    if s.starters[t].pc.MarkStarted? {
      assert u.starters[t].pc == Started;
    } else if s.started {
      var i :| 0 <= i < |s.starters| && s.starters[i].pc == Started
        && |s.starters[i].ran| == s.hooks && AllTrue(s.starters[i].ran);
      assert u.starters[i] == s.starters[i];
    }
  }

  lemma StarterKeepsCause(s: State, t: nat, ok: bool)
    requires Invariant(s) && Enabled(s, StepStarter(t, ok))
    ensures var u := MoveStarter(s, t, ok);
      u.shuttingDown ==> SomeStopping(u) || SomeFailed(u)
  {
    var u := MoveStarter(s, t, ok);
    StarterMoves(s, t, ok);
    if s.starters[t].pc.Rollback? {
      assert !AllTrue(u.starters[t].ran);
    } else if SomeFailed(s) {
      var i :| 0 <= i < |s.starters| && !AllTrue(s.starters[i].ran);
      assert !AllTrue(u.starters[i].ran);
    }
  }

  lemma StarterStepKeeps(s: State, t: nat, ok: bool)
    requires Invariant(s) && Enabled(s, StepStarter(t, ok))
    ensures Invariant(MoveStarter(s, t, ok))
  {
    var u := MoveStarter(s, t, ok);
    StarterMoves(s, t, ok);
    StarterKeepsStarted(s, t, ok);
    StarterKeepsCause(s, t, ok);
    forall i | 0 <= i < |u.probes|
      ensures ProbeOk(u, u.probes[i])
    {
      ProbeStaysOk(s, u, s.probes[i]);
    }
    forall i | 0 <= i < |u.starters|
      ensures StarterOk(u, u.starters[i])
    {
      assert StarterOk(s, s.starters[i]);
    }
  }

  /** Steps that leave the starters alone keep what has been recorded of them. */
  lemma StartersStay(s: State, u: State)
    requires u.starters == s.starters && u.hooks == s.hooks
    ensures (SomeStarted(s) ==> SomeStarted(u)) && (SomeFailed(s) ==> SomeFailed(u))
  {
    if SomeStarted(s) {
      var i :| 0 <= i < |s.starters| && s.starters[i].pc == Started
        && |s.starters[i].ran| == s.hooks && AllTrue(s.starters[i].ran);
      assert u.starters[i].pc == Started;
    }
    if SomeFailed(s) {
      var i :| 0 <= i < |s.starters| && !AllTrue(s.starters[i].ran);
      assert !AllTrue(u.starters[i].ran);
    }
  }

  lemma StopperStepKeeps(s: State, t: nat)
    requires Invariant(s) && Enabled(s, StepStopper(t))
    ensures Invariant(MoveStopper(s, t))
  {
    var u := MoveStopper(s, t);
    StartersStay(s, u);
    assert u.stoppers[t] != Calling;
    forall i | 0 <= i < |u.probes|
      ensures ProbeOk(u, u.probes[i])
    {
      ProbeStaysOk(s, u, s.probes[i]);
    }
    forall i | 0 <= i < |u.starters|
      ensures StarterOk(u, u.starters[i])
    {
      assert StarterOk(s, s.starters[i]);
    }
  }

  lemma StepKeepsInvariant(s: State, step: Step)
    requires Invariant(s) && Enabled(s, step)
    ensures Invariant(Apply(s, step))
  {
    var u := Apply(s, step);
    match step
    case StepStarter(t, ok) => StarterStepKeeps(s, t, ok);
    case StepStopper(t) => StopperStepKeeps(s, t);
    case StepProbe(t, ok) =>
      StartersStay(s, u);
      if SomeStopping(s) {
        var i :| 0 <= i < |s.stoppers| && s.stoppers[i] != Calling;
        assert u.stoppers[i] != Calling;
      }
      forall i | 0 <= i < |u.probes|
        ensures ProbeOk(u, u.probes[i])
      {
        ProbeStepKeeps(s, s.probes[t], ok);
        ProbeStaysOk(s, u, if i == t then NextProbe(s, s.probes[t], ok) else s.probes[i]);
      }
      forall i | 0 <= i < |u.starters|
        ensures StarterOk(u, u.starters[i])
      {
        assert StarterOk(s, s.starters[i]);
      }
  }

  lemma {:induction false} RunKeepsInvariant(s: State, steps: seq<Step>)
    requires Invariant(s) && Feasible(s, steps)
    ensures Invariant(After(s, steps))
  {
    if steps != [] {
      RunKeepsInvariant(s, steps[..|steps| - 1]);
      StepKeepsInvariant(After(s, steps[..|steps| - 1]), steps[|steps| - 1]);
    }
  }

  /** In every interleaving an evaluation that reports ready started before any
      BeginShutdown returned, that of a rollback included, even if MarkStarted comes late,
      and only after some Startup call had run all its hooks without an error; and all its
      own checks passed. */
  lemma ReadyIsFailClosed(s: State, steps: seq<Step>, p: Probe)
    requires s == Initial(s.hooks, s.checks, |s.starters|, |s.stoppers|, |s.probes|)
    requires Feasible(s, steps) && p in After(s, steps).probes
    requires p.pc == Reported(true)
    ensures !p.late && |p.seen| == After(s, steps).checks && AllTrue(p.seen)
    ensures SomeStarted(After(s, steps))
  {
    RunKeepsInvariant(s, steps);
  }

  /** And it is not closed without cause: an evaluation that started after the runtime was
      marked started and reports that it is not ready had a check fail, or somebody has asked
      for a shutdown or failed to start up. */
  lemma UnreadyHasCause(s: State, steps: seq<Step>, p: Probe)
    requires s == Initial(s.hooks, s.checks, |s.starters|, |s.stoppers|, |s.probes|)
    requires Feasible(s, steps) && p in After(s, steps).probes
    requires p.pc == Reported(false) && p.up
    ensures !AllTrue(p.seen) || SomeStopping(After(s, steps)) || SomeFailed(After(s, steps))
  {
    RunKeepsInvariant(s, steps);
  }

  /** A Startup call ends as started if and only if no hook of its failed, and marks the
      runtime accordingly. */
  lemma StartupEndsByItsHooks(s: State, steps: seq<Step>, a: Starter)
    requires s == Initial(s.hooks, s.checks, |s.starters|, |s.stoppers|, |s.probes|)
    requires Feasible(s, steps) && a in After(s, steps).starters && (a.pc.Started? || a.pc.RolledBack?)
    ensures a.pc.Started? <==> AllTrue(a.ran)
    ensures a.pc.Started? ==> |a.ran| == After(s, steps).hooks && After(s, steps).started
    ensures a.pc.RolledBack? ==> After(s, steps).shuttingDown && AllTrue(a.ran[..|a.ran| - 1])
  {
    RunKeepsInvariant(s, steps);
  }

  // ----- one evaluation's report

  datatype CheckResult = CheckResult(name: string, ok: bool, error: string)

  datatype Report = Report(status: string, phase: string, checks: seq<CheckResult>)

  /** What is reported of a check: its name, whether it passed, and the text of its error. */
  function ResultOf(name: string, verdict: Option<string>): CheckResult {
    match verdict
    case None => CheckResult(name, true, "")
    case Some(text) => CheckResult(name, false, text)
  }

  /** `runChecks`: every check is run and reported, in order, and the phase is healthy
      exactly when all of them are. The verdicts are those of `runCheck`. */
  method RunChecks(names: seq<string>, verdicts: seq<Option<string>>, report: Report)
    returns (out: Report, healthy: bool)
    requires |names| == |verdicts|
    ensures healthy <==> forall i | 0 <= i < |verdicts| :: verdicts[i].None?
    ensures out.phase == report.phase && |out.checks| == |report.checks| + |names|
    ensures report.checks <= out.checks
    ensures forall i | 0 <= i < |names| ::
      out.checks[|report.checks| + i] == ResultOf(names[i], verdicts[i])
    ensures !healthy ==> out.status == "unavailable"
    ensures healthy ==> out.status == if report.status == "" then "ok" else report.status
  {
    healthy := true;
    out := report;
    for i := 0 to |names|
      invariant healthy <==> forall k | 0 <= k < i :: verdicts[k].None?
      invariant out.phase == report.phase && out.status == report.status
      invariant |out.checks| == |report.checks| + i && report.checks <= out.checks
      invariant forall k | 0 <= k < i ::
        out.checks[|report.checks| + k] == ResultOf(names[k], verdicts[k])
    {
      var result := CheckResult(names[i], true, "");
      if verdicts[i].Some? {
        healthy := false;
        result := CheckResult(names[i], false, verdicts[i].value);
      }
      out := out.(checks := out.checks + [result]);
    }
    if !healthy {
      out := out.(status := "unavailable");
    } else if out.status == "" {
      out := out.(status := "ok");
    }
  }
}
