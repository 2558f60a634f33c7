/** The critical sections of the supervisor as code that updates its fields. Each method is
    one stretch between locking and unlocking the inner lock, and is proved against the
    section function the step machine is made of. */
module SupervisorSections {
  import opened DependencyGraph
  import opened Lifecycle
  import opened Options

  class Supervisor {
    const cfg: Config
    var procs: map<string, Proc>
    var idle: bool
    var done: nat
    var closedDone: set<nat>
    var panicked: bool
    var stopping: bool
    var hadFailed: bool

    ghost function View(): Core
      reads this
    {
      Core(procs, idle, done, closedDone, panicked, stopping, hadFailed)
    }

    ghost predicate Valid()
      reads this
    {
      ConfigOk(cfg) && procs.Keys == cfg.deps.Keys
    }

    constructor (cfg: Config)
      requires ConfigOk(cfg)
      ensures this.cfg == cfg && Valid() && View() == NewCore(cfg)
    {
      this.cfg := cfg;
      procs := map n | n in cfg.deps :: NewProc;
      idle, done, closedDone, panicked, stopping, hadFailed := false, 0, {}, false, false, false;
    }

    /** A supervisor is made exactly for the dependency graphs that validation accepts. */
    static method New(cfg: Config) returns (s: Option<Supervisor>)
      requires cfg.policy.Keys == cfg.retains.Keys == cfg.deps.Keys
      ensures s.Some? <==> DependencyGraph.Valid(cfg.deps)
      ensures s.Some? ==> fresh(s.value) && s.value.cfg == cfg && s.value.Valid() && s.value.View() == NewCore(cfg)
    {
      var result, _ := ValidateGraph(cfg.deps);
      if result.Rejected? { return None; }
      var made := new Supervisor(cfg);
      return Some(made);
    }

    /** setStateLocked */
    static method SetState(name: string, runtime: Proc, state: PState) returns (updated: Proc, events: seq<Event>)
      ensures updated == runtime.(state := state) && events == Changed(name, runtime, state)
    {
      updated, events := runtime.(state := state), [];
      if runtime.state != state { events := [StateChanged(name, state)]; }
    }

    static method CancelRestartLocked(runtime: Proc) returns (updated: Proc)
      ensures updated == CancelRestart(runtime)
    {
      updated := runtime;
      if updated.restartCancel.Some? {
        updated := updated.(cancelled := updated.cancelled + {updated.restartCancel.value}, restartCancel := None);
      }
      updated := updated.(restarting := false);
    }

    /** The order in which the processes are looked at does not matter. */
    method CheckDoneLocked()
      requires Valid()
      modifies `idle, `closedDone, `panicked
      ensures View() == CheckDone(old(View()))
    {
      var left := procs.Keys;
      while left != {}
        invariant left <= procs.Keys
        invariant forall n :: n in procs && n !in left ==> Settled(procs[n])
        decreases |left|
      {
        var name :| name in left;
        if procs[name].restarting || !Terminal(procs[name].state) {
          assert !Settled(procs[name]);
          return;
        }
        left := left - {name};
      }
      if !idle {
        idle := true;
        if done in closedDone { panicked := true; } else { closedDone := closedDone + {done}; }
      }
    }

    method DependenciesReadyLocked(name: string) returns (ready: bool)
      requires Valid() && name in procs
      ensures ready <==> DepsReady(cfg, View(), name)
    {
      var deps := cfg.deps[name];
      for i := 0 to |deps|
        invariant forall j :: 0 <= j < i ==> deps[j] in procs && procs[deps[j]].reached && !procs[deps[j]].state.Skipped?
      {
        assert Edge(cfg.deps, name, deps[i]);
        if !procs[deps[i]].reached || procs[deps[i]].state.Skipped? { return false; }
      }
      return true;
    }

    method MarkRuntime(name: string) returns (events: seq<Event>)
      requires name in procs
      modifies `procs
      ensures procs == old(procs)[name := MarkOne(old(procs)[name])]
      ensures events == MarkEvent(old(View()), name)
    {
      var runtime := procs[name].(stopRequested := true, reached := false);
      runtime := CancelRestartLocked(runtime);
      events := [];
      if runtime.runner.None? && !Terminal(runtime.state) {
        runtime, events := SetState(name, runtime, Exited);
      }
      procs := procs[name := runtime];
    }

    /** The first section of stopProcesses. */
    method MarkStop(order: seq<string>) returns (events: seq<Event>)
      requires Valid() && Distinct(order) && forall n :: n in order ==> n in procs
      modifies `procs
      ensures Valid() && View() == MarkStopped(old(View()), order)
      ensures events == MarkEvents(old(View()), order)
    {
      hide MarkOne, MarkEvent, ConfigOk;
      events := [];
      for i := 0 to |order|
        invariant procs.Keys == old(procs).Keys
        invariant forall n :: n in procs ==> procs[n] == if n in order[..i] then MarkOne(old(procs)[n]) else old(procs)[n]
        invariant events == MarkEvents(old(View()), order[..i])
      {
        assert order[..i + 1] == order[..i] + [order[i]];
        assert order[..i + 1][..i] == order[..i];
        assert procs[order[i]] == old(procs)[order[i]];
        ghost var before := View();
        var marked := MarkRuntime(order[i]);
        SameMark(before, old(View()), order[i]);
        events := events + marked;
      }
      assert order[..|order|] == order;
    }

    /** The section of stopProcesses that turns to one process. */
    method TurnTo(name: string) returns (runner: Option<nat>, finished: Option<nat>, events: seq<Event>)
      requires Valid() && name in procs
      modifies `procs
      ensures Valid() && View() == Put(old(View()), name, TurnStopping(old(procs)[name]))
      ensures runner == old(procs)[name].runner && finished == old(procs)[name].finished
      ensures events == if runner.Some? then Changed(name, old(procs)[name], Stopping) else []
    {
      hide ConfigOk;
      var runtime := procs[name];
      runner, finished, events := runtime.runner, runtime.finished, [];
      if runner.Some? { runtime, events := SetState(name, runtime, Stopping); }
      procs := procs[name := runtime];
    }

    /** What RestartProcess is going to bring back. */
    method ReadResume(order: seq<string>, name: string) returns (resume: set<string>)
      requires Valid() && forall n :: n in order ==> n in procs
      ensures resume == ResumeSet(View(), order, name)
      ensures forall n :: n in resume <==> n == name || (n in order && (procs[n].runner.Some? || procs[n].restarting || procs[n].state.Pending?))
    {
      resume := {name};
      for i := 0 to |order|
        invariant resume == {name} + set n | n in order[..i] && n in procs && Active(procs[n])
      {
        assert order[..i + 1] == order[..i] + [order[i]];
        var p := procs[order[i]];
        if p.runner.Some? || p.restarting || p.state.Pending? {
          resume := resume + {order[i]};
        }
      }
      assert order[..|order|] == order;
    }

    /** The section of startManual: it refuses, or withdraws a pending restart and tells
        whose exit is to be awaited. */
    method AdmitManual(name: string) returns (admitted: bool, finished: Option<nat>)
      requires Valid()
      modifies `procs
      ensures admitted <==> Startable(cfg, old(View()), name)
      ensures View() == if admitted then Put(old(View()), name, Admit(old(procs)[name])) else old(View())
      ensures Valid() && (admitted ==> finished == old(procs)[name].finished)
    {
      admitted, finished := false, None;
      if name !in procs { return; }
      if procs[name].runner.Some? || (!Terminal(procs[name].state) && !procs[name].state.Pending?) { return; }
      var ready := DependenciesReadyLocked(name);
      if !ready { return; }
      var runtime := CancelRestartLocked(procs[name]);
      procs := procs[name := runtime.(reached := false)];
      admitted, finished := true, runtime.finished;
    }

    /** The first section of startProcess; specOk tells whether the command specification
        could be resolved. */
    method BeginStart(name: string, ctxDone: bool, specOk: bool) returns (ok: bool, events: seq<Event>)
      requires Valid() && name in procs
      modifies `procs, `idle, `done
      ensures Valid() && (ok <==> !(old(stopping) || ctxDone) && specOk)
      ensures View() == if old(stopping) || ctxDone then old(View())
                        else Put(Busied(old(View())), name, Launch(old(procs)[name], specOk))
      ensures events == if old(stopping) || ctxDone then [] else Changed(name, old(procs)[name], Starting)
    {
      hide ConfigOk;
      ok, events := false, [];
      if stopping || ctxDone { return; }
      var runtime := CancelRestartLocked(procs[name]);
      runtime := runtime.(gen := runtime.gen + 1, stopRequested := false);
      if idle { idle, done := false, done + 1; }
      runtime, events := SetState(name, runtime.(exitCode := None), Starting);
      if specOk {
        runtime, ok := runtime.(runner := Some(runtime.gen), finished := Some(runtime.gen)), true;
      }
      procs := procs[name := runtime];
    }

    /** The section of startProcess after the command has started. */
    method CommitStart(name: string) returns (events: seq<Event>)
      requires Valid() && name in procs
      modifies `procs
      ensures Valid() && View() == Put(old(View()), name, Commit(old(procs)[name]))
      ensures events == Changed(name, old(procs)[name], Running) + [Started(name)]
    {
      hide ConfigOk;
      var runtime := procs[name].(reached := true);
      runtime, events := SetState(name, runtime, Running);
      events := events + [Started(name)];
      procs := procs[name := runtime];
    }

    /** The section of waitProcess, with the choice between a restart and the end. */
    method FinishRun(name: string, generation: nat, outcome: Outcome)
      returns (stale: bool, restart: bool, finished: Option<nat>, events: seq<Event>)
      requires Valid() && name in procs
      modifies `procs, `hadFailed, `idle, `closedDone, `panicked
      ensures Valid() && (stale <==> old(procs)[name].gen != generation)
      ensures stale ==> View() == old(View())
      ensures !stale ==> var p := old(procs)[name];
        && restart == ExitRestarts(cfg.policy[name], p, old(stopping), outcome)
        && (restart <==> !old(stopping) && !p.stopRequested && !outcome.supervisionError
                         && match cfg.policy[name] case Never => false case OnFailure => outcome.code != 0 case Always => true)
        && finished == p.finished && events == ExitEvents(name, p, restart, outcome)
        && var core := Put(old(View()), name, Exit(p, restart, outcome))
                       .(hadFailed := old(hadFailed) || (ExitState(p, outcome).Failed? && !restart) || outcome.supervisionError);
           View() == if restart then core else CheckDone(core)
    {
      hide DependencyGraph.Valid, CheckDone, Exit, ExitEvents, ExitState, ExitRestarts;
      stale, restart, finished, events := false, false, None, [];
      if procs[name].gen != generation { stale := true; return; }
      finished := procs[name].finished;
      var runtime, failed;
      restart, failed, runtime, events := EndRun(name, procs[name], outcome);
      hadFailed := hadFailed || failed;
      procs := procs[name := runtime];
      if !restart { CheckDoneLocked(); }
    }

    /** What waitProcess does to the record itself. */
    method EndRun(name: string, before: Proc, outcome: Outcome)
      returns (restart: bool, failed: bool, runtime: Proc, events: seq<Event>)
      requires name in cfg.policy
      ensures restart == ExitRestarts(cfg.policy[name], before, stopping, outcome)
      ensures restart <==> !stopping && !before.stopRequested && !outcome.supervisionError
                           && match cfg.policy[name] case Never => false case OnFailure => outcome.code != 0 case Always => true
      ensures runtime.runner.None? && runtime.state == if restart then Pending
                                                       else if before.stopRequested || (outcome.code == 0 && !outcome.supervisionError) then Exited
                                                       else Failed
      ensures if restart then runtime.restarting && runtime.exitCode.None? && runtime.restarts == before.restarts + 1
              else runtime.restarting == before.restarting && runtime.exitCode == Some(outcome.code) && runtime.restarts == before.restarts
      ensures failed <==> (ExitState(before, outcome).Failed? && !restart) || outcome.supervisionError
      ensures runtime == Exit(before, restart, outcome) && events == ExitEvents(name, before, restart, outcome)
    {
      runtime := before.(exitCode := Some(outcome.code), runner := None);
      var state := Exited;
      if !runtime.stopRequested && (outcome.code != 0 || outcome.supervisionError) { state := Failed; }
      restart := !stopping && !runtime.stopRequested && !outcome.supervisionError && ShouldRestart(cfg.policy[name], outcome.code);
      failed := (state.Failed? && !restart) || outcome.supervisionError;
      runtime, events := SetState(name, runtime, state);
      events := events + [ProcessExited(name, state)];
      if outcome.supervisionError { events := events + [SupervisorError(name)]; }
      if restart {
        runtime := runtime.(restarts := runtime.restarts + 1, restarting := true, exitCode := None, restartCancel := Some(runtime.gen));
        var pending;
        runtime, pending := SetState(name, runtime, Pending);
        events := events + pending + [RestartScheduled(name)];
      }
    }

    method SkipProcess(name: string) returns (events: seq<Event>)
      requires Valid() && name in procs
      modifies `procs, `hadFailed
      ensures Valid() && View() == Put(old(View()), name, Skip(old(procs)[name])).(hadFailed := true)
      ensures events == Changed(name, old(procs)[name], Skipped) + [ProcessSkipped(name)]
    {
      hide ConfigOk;
      hadFailed := true;
      var runtime;
      runtime, events := SetState(name, procs[name], Skipped);
      procs := procs[name := runtime];
      events := events + [ProcessSkipped(name)];
    }

    /** markStartFailed: it closes the channel of a run that never got a waiter. */
    method MarkStartFailed(name: string) returns (events: seq<Event>)
      requires Valid() && name in procs
      modifies `procs, `hadFailed, `idle, `closedDone, `panicked
      ensures Valid() && View() == CheckDone(Put(old(View()), name, FailStart(old(procs)[name])).(hadFailed := true))
      ensures events == Changed(name, old(procs)[name], Failed) + [SupervisorError(name)]
    {
      hide ConfigOk, CheckDone, FailStart;
      var runtime;
      runtime, events := FailRuntime(name, procs[name]);
      procs := procs[name := runtime];
      hadFailed := true;
      CheckDoneLocked();
    }

    static method FailRuntime(name: string, before: Proc) returns (runtime: Proc, events: seq<Event>)
      ensures runtime == FailStart(before) && events == Changed(name, before, Failed) + [SupervisorError(name)]
    {
      runtime := before.(exitCode := Some(1));
      if runtime.runner.Some? && runtime.finished.Some? {
        if runtime.finished.value in runtime.closed { runtime := runtime.(panicked := true); }
        else { runtime := runtime.(closed := runtime.closed + {runtime.finished.value}); }
      }
      runtime := runtime.(runner := None, restarting := false, stopRequested := false);
      runtime, events := SetState(name, runtime, Failed);
      events := events + [SupervisorError(name)];
    }

    /** The section of forwardLogs: the line's cursor is the ring's revision. */
    method AddLogLine(name: string) returns (cursor: nat)
      requires Valid() && name in procs
      modifies `procs
      ensures Valid() && View() == Put(old(View()), name, AddLog(old(procs)[name], cfg.retains[name]))
      ensures cursor == procs[name].logged
    {
      hide DependencyGraph.Valid;
      var runtime := procs[name];
      if cfg.retains[name] { runtime := runtime.(logged := runtime.logged + 1); }
      procs := procs[name := runtime];
      cursor := runtime.logged;
    }
  }

  lemma SameMark(core: Core, core': Core, n: string)
    requires n in core.procs && n in core'.procs && core.procs[n] == core'.procs[n]
    ensures MarkEvent(core, n) == MarkEvent(core', n)
  {
  }
}
