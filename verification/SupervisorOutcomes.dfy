/** What the supervisor's records mean and what becomes of a process: final exits are final,
    states and exit codes say what happened, failures are counted, every change of state is
    announced, and Run ends for the reason its options give. */
module SupervisorOutcomes {
  import opened DependencyGraph
  import opened StopOrder
  import opened Lifecycle
  import opened Options
  import opened SupervisorMachine
  import opened SupervisorUnit
  import opened SupervisorInvariant
  import opened SupervisorEffects
  import opened SupervisorDependencies
  import opened SupervisorStops
  import opened SupervisorEvents
  import opened SupervisorDecisions

  // ---------- A final exit is final ----------

  /** The run has published its last exit, or is about to, without a reservation. */
  ghost predicate Over(s: Sys, r: Run) {
    && r.name in s.core.procs && r.name in s.waiters && r.gen <= s.core.procs[r.name].gen
    && (r.gen in s.waiters[r.name] ==>
          s.waiters[r.name][r.gen].phase.Publishing? && !s.waiters[r.name][r.gen].phase.restart)
    && (r.gen == s.core.procs[r.name].gen ==> !Launching(At(s.holder, r.name)))
  }

  lemma OverWaiter(cfg: Config, s: Sys, s': Sys, step: Step, r: Run)
    requires Inv(cfg, s) && Next(cfg, s, s', step) && Over(s, r) && r.gen in s.waiters[r.name]
    ensures var ws := WaitersAfter(cfg, s, step, r.name);
            r.gen in ws ==> ws[r.gen].phase == s.waiters[r.name][r.gen].phase
  {
    hide Inv, Next, ExitEvents, ExitRestarts, At, ViewOf;
    NextGuarded(cfg, s, s', step);
    if step == ReserveStep(r) { EndStep(cfg, s, s', step); ReservedWanted(cfg, s, s', r); }
  }

  lemma ReservedWanted(cfg: Config, s: Sys, s': Sys, r: Run)
    requires EndNext(cfg, s, s', ReserveStep(r))
    ensures HasWaiter(s, r) && TheWaiter(s, r).phase.Publishing? && TheWaiter(s, r).phase.restart
  {
  }

  lemma OverKeeps(cfg: Config, s: Sys, s': Sys, step: Step, r: Run)
    requires Inv(cfg, s) && Next(cfg, s, s', step) && Over(s, r)
    ensures Over(s', r) && step != TimerTake(r)
  {
    hide Inv, Next, RecordAfter, WaitersAfter, Approached, At, Launches;
    Effects(cfg, s, s', step, r.name);
    GenRecord(cfg, s, step, r.name);
    if r.gen in s.waiters[r.name] {
      OverWaiter(cfg, s, s', step, r);
    } else if r.gen in s'.waiters[r.name] {
      WaiterKeysAfter(cfg, s, step, r.name, r.gen);
    }
    if r.gen == s'.core.procs[r.name].gen { SpentPlace(cfg, s, s', step, r.name); }
    if step == TimerTake(r) { EndStep(cfg, s, s', step); TakenFired(cfg, s, s', r); }
  }

  lemma TakenFired(cfg: Config, s: Sys, s': Sys, r: Run)
    requires EndNext(cfg, s, s', TimerTake(r))
    ensures HasWaiter(s, r) && TheWaiter(s, r).phase.Fired?
  {
    hide TimerValid;
  }

  lemma {:induction false} OverStays(cfg: Config, trace: seq<Sys>, steps: seq<Step>, i: nat, j: nat, r: Run)
    requires Trace(cfg, trace, steps) && i <= j < |trace| && Over(trace[i], r)
    ensures Over(trace[j], r)
    decreases j - i
  {
    hide Next, Inv, Over;
    if i < j {
      OverStays(cfg, trace, steps, i, j - 1, r);
      StepOf(cfg, trace, steps, j - 1);
      assert Next(cfg, trace[j - 1], trace[j - 1 + 1], steps[j - 1]);
      OverKeeps(cfg, trace[j - 1], trace[j], steps[j - 1], r);
    }
  }

  /** The restart policy over a whole run: an exit the policy, a requested stop, shutdown or a
      supervision error makes final is never followed by an automatic restart of that run. */
  lemma FinalExitIsFinal(cfg: Config, trace: seq<Sys>, steps: seq<Step>, i: nat, j: nat)
    requires Trace(cfg, trace, steps) && i < j < |steps| && steps[i].ExitStep?
    requires HasWaiter(trace[i], steps[i].run) && TheWaiter(trace[i], steps[i].run).phase.Done? && steps[i].run.name in cfg.policy
    requires !Reserves(cfg, trace[i], steps[i].run)
    ensures steps[j] != TimerTake(steps[i].run)
  {
    hide Next, Inv, Init, Reserves, At;
    ExitDecides(cfg, trace, steps, i);
    StepOf(cfg, trace, steps, i);
    RunKeeps(cfg, trace, steps, i + 1);
    ExitedOver(cfg, trace[i + 1], steps[i].run);
    OverStays(cfg, trace, steps, i + 1, j, steps[i].run);
    StepOf(cfg, trace, steps, j);
    OverKeeps(cfg, trace[j], trace[j + 1], steps[j], steps[i].run);
  }

  lemma ExitedOver(cfg: Config, s: Sys, r: Run)
    requires Inv(cfg, s) && HasWaiter(s, r) && TheWaiter(s, r).phase.Publishing? && !TheWaiter(s, r).phase.restart
    ensures Over(s, r)
  {
    hide Frame;
    assert UnitOk(ViewOf(s, r.name));
    assert WaiterOk(Own(s, r), r.gen, TheWaiter(s, r));
  }

  // ---------- What Run does ----------

  predicate LeftWhenDone(phase: RunPhase) {
    phase.Watching? || ((phase.Draining? || phase.Announced? || phase.Finished?) && phase.viaDone)
  }

  lemma CommandPhaseKeeps(cfg: Config, s: Sys, s': Sys, step: Step)
    requires CommandNext(cfg, s, s', step) && !LeftWhenDone(s.phase)
    ensures !LeftWhenDone(s'.phase)
  {
    hide IsStartOrder, IsFullStopOrder, IsStopOrder;
  }

  lemma TurnPhaseKeeps(cfg: Config, s: Sys, s': Sys, step: Step)
    requires TurnNext(cfg, s, s', step) && !LeftWhenDone(s.phase)
    ensures !LeftWhenDone(s'.phase)
  {
    hide MarkOne, MarkEvents, Admit, Skip, TurnStopping, LeaveTimer, DepsReady, Startable;
  }

  lemma RunPhaseKeeps(cfg: Config, s: Sys, s': Sys, step: Step)
    requires RunNext(cfg, s, s', step) && !LeftWhenDone(s.phase) && cfg.keepRunning
    ensures !LeftWhenDone(s'.phase)
  {
  }

  lemma KeepPhase(cfg: Config, s: Sys, s': Sys, step: Step)
    requires Next(cfg, s, s', step) && !LeftWhenDone(s.phase) && cfg.keepRunning
    ensures !LeftWhenDone(s'.phase)
  {
    hide LeftWhenDone, CommandNext, MoveNext, TurnNext, StartNext, OutputNext, EndNext, RunNext;
    if CommandNext(cfg, s, s', step) { CommandPhaseKeeps(cfg, s, s', step); }
    else if MoveNext(cfg, s, s', step) { MoveFrame(cfg, s, s', step); }
    else if TurnNext(cfg, s, s', step) { TurnPhaseKeeps(cfg, s, s', step); }
    else if StartNext(cfg, s, s', step) { StartFrame(cfg, s, s', step); }
    else if OutputNext(cfg, s, s', step) { OutputFrame(cfg, s, s', step); }
    else if EndNext(cfg, s, s', step) { EndFrame(cfg, s, s', step); }
    else { RunPhaseKeeps(cfg, s, s', step); }
  }

  /** KeepRunningWhenDone: Run never watches completion and never leaves because of it. */
  lemma {:induction false} KeepsRunning(cfg: Config, trace: seq<Sys>, steps: seq<Step>, i: nat)
    requires Trace(cfg, trace, steps) && i < |trace| && cfg.keepRunning
    ensures !LeftWhenDone(trace[i].phase)
  {
    hide Next, LeftWhenDone;
    if i == 0 {
      NotLeft(cfg, trace[0]);
    } else {
      KeepsRunning(cfg, trace, steps, i - 1);
      assert Next(cfg, trace[i - 1], trace[i - 1 + 1], steps[i - 1]);
      KeepPhase(cfg, trace[i - 1], trace[i], steps[i - 1]);
    }
  }

  lemma NotLeft(cfg: Config, s: Sys)
    requires Init(cfg, s)
    ensures !LeftWhenDone(s.phase)
  {
  }

  /** Without it Run watches the current completion channel, whenever it is at its top. */
  lemma WatchesWhenDone(cfg: Config, s: Sys)
    requires !cfg.keepRunning && s.phase.AtTop?
    ensures Next(cfg, s, s.(phase := Watching(s.core.done)), Watch)
  {
    hide CommandNext, MoveNext, TurnNext, StartNext, OutputNext, EndNext;
  }

  /** From there, once the channel is closed and the lock is free, it leaves for good if the
      supervisor is idle, and looks at the channel anew if it is busy again. */
  lemma LeavesWhenDone(cfg: Config, s: Sys)
    requires s.phase.Watching? && s.phase.done in s.core.closedDone && s.holder.Free?
    ensures s.core.idle ==> Next(cfg, s, s.(core := s.core.(stopping := true), phase := Draining(true)), DoneTake)
    ensures !s.core.idle ==> Next(cfg, s, s.(phase := AtTop), DoneTake)
  {
    hide MoveNext, TurnNext, StartNext, OutputNext, EndNext, RunNext;
  }

  predicate LeftWhenCancelled(phase: RunPhase) {
    phase.StoppingAll? || ((phase.Draining? || phase.Announced? || phase.Finished?) && !phase.viaDone)
  }

  /** Run stops everything only after cancellation, and leaves otherwise only through done. */
  ghost predicate Cancelled(s: Sys) {
    && (LeftWhenCancelled(s.phase) ==> s.ctxDone)
    && (s.holder.Busy? && s.holder.op.OpStopAll? && s.holder.op.byRun ==> s.ctxDone)
  }

  lemma CommandCancelled(cfg: Config, s: Sys, s': Sys, step: Step)
    requires CommandNext(cfg, s, s', step) && Cancelled(s)
    ensures Cancelled(s')
  {
    hide IsStartOrder, IsFullStopOrder, IsStopOrder;
  }

  lemma TurnCancelled(cfg: Config, s: Sys, s': Sys, step: Step)
    requires TurnNext(cfg, s, s', step) && Cancelled(s)
    ensures Cancelled(s')
  {
    hide MarkOne, MarkEvents, Admit, Skip, TurnStopping, LeaveTimer, DepsReady, Startable;
  }

  lemma RunCancelled(cfg: Config, s: Sys, s': Sys, step: Step)
    requires RunNext(cfg, s, s', step) && Cancelled(s)
    ensures Cancelled(s')
  {
  }

  lemma CancelledKeeps(cfg: Config, s: Sys, s': Sys, step: Step)
    requires Next(cfg, s, s', step) && Cancelled(s)
    ensures Cancelled(s')
  {
    hide CommandNext, MoveNext, TurnNext, StartNext, OutputNext, EndNext, RunNext;
    if CommandNext(cfg, s, s', step) { CommandCancelled(cfg, s, s', step); }
    else if MoveNext(cfg, s, s', step) { MoveFrame(cfg, s, s', step); }
    else if TurnNext(cfg, s, s', step) { TurnCancelled(cfg, s, s', step); }
    else if StartNext(cfg, s, s', step) { StartFrame(cfg, s, s', step); }
    else if OutputNext(cfg, s, s', step) { OutputFrame(cfg, s, s', step); }
    else if EndNext(cfg, s, s', step) { EndFrame(cfg, s, s', step); }
    else { RunCancelled(cfg, s, s', step); }
  }

  lemma {:induction false} LeavesForReason(cfg: Config, trace: seq<Sys>, steps: seq<Step>, i: nat)
    requires Trace(cfg, trace, steps) && i < |trace|
    ensures Cancelled(trace[i])
  {
    hide Next;
    if i > 0 {
      LeavesForReason(cfg, trace, steps, i - 1);
      assert Next(cfg, trace[i - 1], trace[i - 1 + 1], steps[i - 1]);
      CancelledKeeps(cfg, trace[i - 1], trace[i], steps[i - 1]);
    }
  }

  // ---------- Failures ----------

  /** The step makes the run a failed one: a process was skipped, could not be started, failed
      for good, or could not be supervised. */
  ghost predicate Fails(cfg: Config, s: Sys, step: Step) {
    || step.SkipStep? || step.FailStep?
    || (step.ExitStep? && HasWaiter(s, step.run) && TheWaiter(s, step.run).phase.Done? && step.run.name in cfg.policy
        && var outcome := TheWaiter(s, step.run).phase.outcome;
           outcome.supervisionError
           || (outcome.code != 0 && !Own(s, step.run).stopRequested && !Reserves(cfg, s, step.run)))
  }

  lemma SkipFails(s: Sys, s': Sys)
    requires DoSkip(s, s')
    ensures s'.core.hadFailed
  {
  }

  lemma FailFails(s: Sys, s': Sys)
    requires DoFail(s, s')
    ensures s'.core.hadFailed
  {
    hide AllDone, FailStart;
  }

  lemma ExitFails(cfg: Config, s: Sys, s': Sys, r: Run)
    requires DoExit(cfg, s, s', r)
    ensures s'.core.hadFailed <==> s.core.hadFailed || Fails(cfg, s, ExitStep(r))
  {
    hide AllDone, Exit, ExitEvents;
  }

  lemma MarkFails(s: Sys, s': Sys)
    requires DoMark(s, s') || (exists n :: DoTurn(s, s', n))
    ensures s'.core.hadFailed == s.core.hadFailed
  {
    hide MarkOne, MarkEvents, TurnStopping, StopList, AtTurn, Changed;
  }

  lemma TurnFails(cfg: Config, s: Sys, s': Sys, step: Step)
    requires TurnNext(cfg, s, s', step) && !step.SkipStep?
    ensures s'.core.hadFailed == s.core.hadFailed
  {
    hide Admit, LeaveTimer, DepsReady, Startable, DoSkip, DoMark, DoTurn;
    if step.MarkStep? || step.TurnStep? { MarkFails(s, s'); }
  }

  lemma StartFails(cfg: Config, s: Sys, s': Sys, step: Step)
    requires StartNext(cfg, s, s', step) && !step.FailStep?
    ensures s'.core.hadFailed == s.core.hadFailed
  {
    hide Launch, DoFail, Commit;
  }

  lemma EndFails(cfg: Config, s: Sys, s': Sys, step: Step)
    requires EndNext(cfg, s, s', step) && !step.ExitStep?
    ensures s'.core.hadFailed == s.core.hadFailed
  {
    hide DoExit, CloseFinished, TimerValid, LeaveTimer, HasWaiter, TheWaiter, Own;
  }

  lemma OthersFail(cfg: Config, s: Sys, s': Sys, step: Step)
    requires CommandNext(cfg, s, s', step) || OutputNext(cfg, s, s', step)
    ensures s'.core.hadFailed == s.core.hadFailed
  {
    hide IsStartOrder, IsFullStopOrder, IsStopOrder, AddLog, HasWaiter, TheWaiter;
  }

  lemma FailingStep(cfg: Config, s: Sys, s': Sys, step: Step)
    requires Next(cfg, s, s', step)
    ensures (step.SkipStep? ==> DoSkip(s, s')) && (step.FailStep? ==> DoFail(s, s')) && (step.ExitStep? ==> DoExit(cfg, s, s', step.run))
  {
    hide DoSkip, DoFail, DoExit, Next;
    if step.SkipStep? { TurnsStep(cfg, s, s', step); }
    else if step.FailStep? { StartStep(cfg, s, s', step); }
    else if step.ExitStep? { EndStep(cfg, s, s', step); }
  }

  lemma NextFails(cfg: Config, s: Sys, s': Sys, step: Step)
    requires Next(cfg, s, s', step)
    ensures s'.core.hadFailed <==> s.core.hadFailed || Fails(cfg, s, step)
  {
    hide HasWaiter, Reserves, DoSkip, DoFail, DoExit, CommandNext, MoveNext, TurnNext, StartNext, OutputNext, EndNext, RunNext;
    FailingStep(cfg, s, s', step);
    if step.SkipStep? { SkipFails(s, s'); }
    else if step.FailStep? { FailFails(s, s'); }
    else if step.ExitStep? { ExitFails(cfg, s, s', step.run); }
    else if CommandNext(cfg, s, s', step) || OutputNext(cfg, s, s', step) { OthersFail(cfg, s, s', step); }
    else if MoveNext(cfg, s, s', step) { MoveFrame(cfg, s, s', step); }
    else if TurnNext(cfg, s, s', step) { TurnFails(cfg, s, s', step); }
    else if StartNext(cfg, s, s', step) { StartFails(cfg, s, s', step); }
    else if EndNext(cfg, s, s', step) { EndFails(cfg, s, s', step); }
    else { RunFrame(cfg, s, s', step); }
  }

  /** The failure that Run reports when it leaves through done: there was one. */
  lemma {:induction false} HadFailedMeans(cfg: Config, trace: seq<Sys>, steps: seq<Step>, i: nat)
    requires Trace(cfg, trace, steps) && i < |trace|
    ensures trace[i].core.hadFailed <==> exists k: nat :: k < i && k < |steps| && Fails(cfg, trace[k], steps[k])
  {
    hide Next, Fails;
    if i > 0 {
      HadFailedMeans(cfg, trace, steps, i - 1);
      assert Next(cfg, trace[i - 1], trace[i - 1 + 1], steps[i - 1]);
      NextFails(cfg, trace[i - 1], trace[i], steps[i - 1]);
    }
  }

  // ---------- States and exit codes ----------

  /** What the state of a process tells about it; at is where the lock holder stands with it. */
  predicate StateMeans(p: Proc, at: Pc) {
    match p.state
    case Pending => p.runner.None? && (p.gen == 0 || p.restarting || at.ManualWait? || at.Begin? || at.Fail?)
    case Starting => (at.Exec? || at.CommitAt? || at.Fail?) && (at.Exec? || at.CommitAt? ==> p.runner.Some?)
    case Running => p.runner.Some? && (p.reached || p.stopRequested)
    case Stopping => p.runner.Some? && p.stopRequested
    case _ => p.runner.None?
  }

  /** An exit code is shown once a run has ended, and no longer when another has begun or will. */
  predicate CodeMeans(p: Proc) {
    && (p.runner.Some? || p.restarting || p.state.Starting? ==> p.exitCode.None?)
    && (p.state.Failed? ==> p.exitCode.Some?)
  }

  /** How the holder's place with a process moves on. */
  predicate Moves(step: Step, p: Proc, at: Pc, at': Pc) {
    && (at'.CommitAt? ==> at.Exec? || at == at')
    && (at'.Exec? ==> at == at' || (step == LaunchStep(true) && at.Begin?))
    && (at.Exec? && at' != at ==> at'.CommitAt? || at'.Fail?)
    && (at.CommitAt? && at' != at ==> step.CommitStep?)
    && (at.Fail? && at' != at ==> step.FailStep?)
    && (at.ManualWait? && at' != at ==> at'.Begin?)
    && (at.Begin? && at' != at ==> at'.Fail? || step.LaunchStep?)
    && (step.LaunchStep? && at.Begin? ==> if step == LaunchStep(true) then at'.Exec? else at'.Fail?)
    && (step.AdmitStep? && at.ManualGate? ==> at'.ManualWait? && p.runner.None?)
  }

  ghost predicate Placed(s: Sys, s': Sys, step: Step, n: string)
    requires n in s.core.procs
  {
    Moves(step, s.core.procs[n], At(s.holder, n), At(s'.holder, n))
  }

  lemma TurnPlaced(cfg: Config, s: Sys, s': Sys, step: Step, n: string)
    requires TurnNext(cfg, s, s', step) && n in s.core.procs
    ensures Placed(s, s', step, n)
  {
    hide MarkOne, MarkEvents, Admit, Skip, TurnStopping, LeaveTimer, DepsReady, Changed, MarkStopped;
  }

  lemma StartPlaced(cfg: Config, s: Sys, s': Sys, step: Step, n: string)
    requires StartNext(cfg, s, s', step) && n in s.core.procs
    ensures Placed(s, s', step, n)
  {
    hide AllDone, Launch, FailStart, Commit, Changed;
  }

  lemma MovePlaced(cfg: Config, s: Sys, s': Sys, step: Step, n: string)
    requires MoveNext(cfg, s, s', step) && n in s.core.procs
    ensures Placed(s, s', step, n)
  {
    hide AllDone, Startable, HasWaiter, ResumeSet;
  }

  lemma CommandPlaced(cfg: Config, s: Sys, s': Sys, step: Step, n: string)
    requires CommandNext(cfg, s, s', step) && n in s.core.procs
    ensures Placed(s, s', step, n)
  {
    hide IsStartOrder, IsFullStopOrder, IsStopOrder;
  }

  lemma EndPlaced(cfg: Config, s: Sys, s': Sys, step: Step, n: string)
    requires EndNext(cfg, s, s', step) && n in s.core.procs
    ensures Placed(s, s', step, n)
  {
    hide EndNext;
    EndFrame(cfg, s, s', step);
    EndKind(cfg, s, s', step);
  }

  lemma EndKind(cfg: Config, s: Sys, s': Sys, step: Step)
    requires EndNext(cfg, s, s', step)
    ensures RunOf(step).Some?
  {
    hide DoExit, DoStale, DoClose, DoReserve, DoCancelSeen, DoTimerTake, DoTimerLapse;
  }

  lemma OutputPlaced(cfg: Config, s: Sys, s': Sys, step: Step, n: string)
    requires (OutputNext(cfg, s, s', step) || RunNext(cfg, s, s', step)) && n in s.core.procs
    ensures Placed(s, s', step, n)
  {
    hide AddLog, HasWaiter, TheWaiter, Own;
  }

  lemma NextPlaced(cfg: Config, s: Sys, s': Sys, step: Step, n: string)
    requires Next(cfg, s, s', step) && n in s.core.procs
    ensures Placed(s, s', step, n)
  {
    hide Placed, CommandNext, MoveNext, TurnNext, StartNext, OutputNext, EndNext, RunNext;
    if CommandNext(cfg, s, s', step) { CommandPlaced(cfg, s, s', step, n); }
    else if MoveNext(cfg, s, s', step) { MovePlaced(cfg, s, s', step, n); }
    else if TurnNext(cfg, s, s', step) { TurnPlaced(cfg, s, s', step, n); }
    else if StartNext(cfg, s, s', step) { StartPlaced(cfg, s, s', step, n); }
    else if EndNext(cfg, s, s', step) { EndPlaced(cfg, s, s', step, n); }
    else { OutputPlaced(cfg, s, s', step, n); }
  }

  /** The facts about a process these meanings rest on. */
  predicate Grounds(p: Proc, at: Pc) {
    && (p.runner.None? ==> !Launching(at))
    && (p.runner.Some? ==> !at.Begin? && !at.SkipAt?)
    && (p.restarting ==> p.state.Pending? && p.runner.None? && !p.stopRequested && !at.SkipAt?)
  }

  lemma UnitGrounds(v: View)
    requires UnitOk(v)
    ensures Grounds(v.p, v.at)
  {
  }

  lemma SameMeans(step: Step, p: Proc, at: Pc, at': Pc)
    requires Grounds(p, at) && StateMeans(p, at) && CodeMeans(p) && Moves(step, p, at, at') && !step.CommitStep? && !step.FailStep? && !(step.LaunchStep? && at.Begin?)
    ensures StateMeans(p, at') && CodeMeans(p)
  {
  }

  lemma MarkMeans(step: Step, p: Proc, at: Pc, at': Pc)
    requires Grounds(p, at) && StateMeans(p, at) && CodeMeans(p) && Moves(step, p, at, at') && step.MarkStep?
    ensures StateMeans(MarkOne(p), at') && CodeMeans(MarkOne(p))
  {
  }

  lemma TurnMeans(step: Step, p: Proc, at: Pc, at': Pc)
    requires Grounds(p, at) && StateMeans(p, at) && CodeMeans(p) && Moves(step, p, at, at') && step.TurnStep? && p.stopRequested
    ensures StateMeans(TurnStopping(p), at') && CodeMeans(TurnStopping(p))
  {
  }

  lemma SkipMeans(step: Step, p: Proc, at: Pc, at': Pc)
    requires Grounds(p, at) && StateMeans(p, at) && CodeMeans(p) && Moves(step, p, at, at') && step.SkipStep? && at.SkipAt?
    ensures StateMeans(Skip(p), at') && CodeMeans(Skip(p))
  {
  }

  lemma AdmitMeans(step: Step, p: Proc, at: Pc, at': Pc)
    requires Grounds(p, at) && StateMeans(p, at) && CodeMeans(p) && Moves(step, p, at, at') && step.AdmitStep? && at.ManualGate?
    ensures StateMeans(Admit(p), at') && CodeMeans(Admit(p))
  {
  }

  lemma LaunchMeans(step: Step, p: Proc, at: Pc, at': Pc)
    requires Grounds(p, at) && StateMeans(p, at) && CodeMeans(p) && Moves(step, p, at, at') && step.LaunchStep? && at.Begin?
    ensures StateMeans(Launch(p, step.spec), at') && CodeMeans(Launch(p, step.spec))
  {
  }

  lemma CommitMeans(step: Step, p: Proc, at: Pc, at': Pc)
    requires Grounds(p, at) && StateMeans(p, at) && CodeMeans(p) && Moves(step, p, at, at') && step.CommitStep? && at.CommitAt?
    ensures StateMeans(Commit(p), at') && CodeMeans(Commit(p))
  {
  }

  lemma FailMeans(step: Step, p: Proc, at: Pc, at': Pc)
    requires Grounds(p, at) && StateMeans(p, at) && CodeMeans(p) && Moves(step, p, at, at') && step.FailStep? && at.Fail?
    ensures StateMeans(FailStart(p), at') && CodeMeans(FailStart(p))
  {
  }

  lemma LeaveMeans(step: Step, p: Proc, at: Pc, at': Pc, k: nat)
    requires Grounds(p, at) && StateMeans(p, at) && CodeMeans(p) && Moves(step, p, at, at') && step.ReturnStep?
    ensures StateMeans(LeaveTimer(p, k), at') && CodeMeans(LeaveTimer(p, k))
  {
  }

  /** A commit or a failed start elsewhere. */
  lemma ElsewhereMeans(step: Step, p: Proc, at: Pc, at': Pc)
    requires Grounds(p, at) && StateMeans(p, at) && CodeMeans(p) && Moves(step, p, at, at')
    requires (step.CommitStep? && !at.CommitAt?) || (step.FailStep? && !at.Fail?)
    ensures StateMeans(p, at') && CodeMeans(p)
  {
  }

  /** What each section of the lock holder leaves of the process it is about. */
  lemma HolderRecord(cfg: Config, s: Sys, step: Step, n: string)
    requires n in s.core.procs && RunOf(step).None?
    ensures var p, at, p' := s.core.procs[n], At(s.holder, n), RecordAfter(cfg, s, step, n);
            match step
            case SkipStep => p' == if at.SkipAt? then Skip(p) else p
            case MarkStep => p' == p || (s.holder.Busy? && n in StopList(s.holder.op) && p' == MarkOne(p))
            case TurnStep(m) => p' == if m == n then TurnStopping(p) else p
            case AdmitStep => p' == if at.ManualGate? then Admit(p) else p
            case LaunchStep(spec) => p' == if at.Begin? then Launch(p, spec) else p
            case CommitStep => p' == if at.CommitAt? then Commit(p) else p
            case FailStep => p' == if at.Fail? then FailStart(p) else p
            case ReturnStep => p' == p || exists k :: p' == LeaveTimer(p, k)
            case _ => p' == p
  {
    hide Skip, MarkOne, TurnStopping, Admit, Launch, Commit, FailStart, LeaveTimer, AddLog, Exit, ExitRestarts, CloseFinished,
         HasWaiter, TheWaiter, At, StopList;
  }

  lemma HolderStates(cfg: Config, s: Sys, s': Sys, step: Step, n: string)
    requires n in s.core.procs && RunOf(step).None?
    requires var p, at := s.core.procs[n], At(s.holder, n); Grounds(p, at) && StateMeans(p, at) && CodeMeans(p)
    requires Placed(s, s', step, n) && (step == TurnStep(n) ==> s.core.procs[n].stopRequested)
    ensures var p' := RecordAfter(cfg, s, step, n); StateMeans(p', At(s'.holder, n)) && CodeMeans(p')
  {
    hide At, RecordAfter, StateMeans, CodeMeans, Grounds, Moves, RunOf, Skip, MarkOne, TurnStopping, Admit, Launch, Commit, FailStart,
         LeaveTimer;
    var p, at, at' := s.core.procs[n], At(s.holder, n), At(s'.holder, n);
    HolderRecord(cfg, s, step, n);
    if step.ReturnStep? {
      if k :| RecordAfter(cfg, s, step, n) == LeaveTimer(p, k) { LeaveMeans(step, p, at, at', k); } else { SameMeans(step, p, at, at'); }
    } else if step.SkipStep? && at.SkipAt? { SkipMeans(step, p, at, at'); }
    else if step.AdmitStep? && at.ManualGate? { AdmitMeans(step, p, at, at'); }
    else if step.LaunchStep? && at.Begin? { LaunchMeans(step, p, at, at'); }
    else if step.CommitStep? && at.CommitAt? { CommitMeans(step, p, at, at'); }
    else if step.FailStep? && at.Fail? { FailMeans(step, p, at, at'); }
    else if step.CommitStep? || step.FailStep? { ElsewhereMeans(step, p, at, at'); }
    else {
      SameMeans(step, p, at, at');
      if step.MarkStep? { MarkMeans(step, p, at, at'); }
      if step == TurnStep(n) { TurnMeans(step, p, at, at'); }
    }
  }

  lemma WaiterStates(cfg: Config, s: Sys, s': Sys, step: Step, n: string)
    requires n in s.core.procs && n in s.waiters && RunOf(step).Some? && Guarded(cfg, s, step)
    requires var p, at := s.core.procs[n], At(s.holder, n); Grounds(p, at) && StateMeans(p, at) && CodeMeans(p)
    requires step.ExitStep? && step.run.name == n ==> s.core.procs[n].runner.Some? && !Launching(At(s.holder, n))
    requires Placed(s, s', step, n)
    ensures var p' := RecordAfter(cfg, s, step, n); StateMeans(p', At(s'.holder, n)) && CodeMeans(p')
  {
    hide At, ExitRestarts, ShouldRestart, Ahead, TimerOf, ViewOf;
  }

  ghost predicate Meaningful(s: Sys, n: string) {
    n in s.core.procs && StateMeans(s.core.procs[n], At(s.holder, n)) && CodeMeans(s.core.procs[n])
  }

  lemma MeaningKeeps(cfg: Config, s: Sys, s': Sys, step: Step, n: string)
    requires Inv(cfg, s) && LoopOk(s) && Next(cfg, s, s', step) && Meaningful(s, n)
    ensures Meaningful(s', n)
  {
    hide Inv, Next, LoopOk, UnitOk, At, StateMeans, CodeMeans, Grounds, Placed, RecordAfter, WaitersAfter, Approached, Guarded, RunOf;
    Effects(cfg, s, s', step, n);
    UnitOf(cfg, s, n);
    GroundsHere(s, n);
    NextPlaced(cfg, s, s', step, n);
    if step == TurnStep(n) { TurnIsMarked(cfg, s, s', n); }
    if RunOf(step).None? {
      HolderStates(cfg, s, s', step, n);
    } else {
      NextGuarded(cfg, s, s', step);
      if step.ExitStep? && step.run.name == n { ExitingHere(cfg, s, step.run); }
      WaiterStates(cfg, s, s', step, n);
    }
  }

  lemma GroundsHere(s: Sys, n: string)
    requires n in s.core.procs && n in s.waiters && UnitOk(ViewOf(s, n))
    ensures Grounds(s.core.procs[n], At(s.holder, n))
  {
    hide UnitOk, Grounds;
    UnitGrounds(ViewOf(s, n));
  }

  /** The stop loop turns only to processes it has marked. */
  lemma TurnIsMarked(cfg: Config, s: Sys, s': Sys, n: string)
    requires Inv(cfg, s) && LoopOk(s) && Next(cfg, s, s', TurnStep(n))
    ensures n in s.core.procs && s.core.procs[n].stopRequested
  {
    hide Next, LoopOk, Inv;
    TurnsStep(cfg, s, s', TurnStep(n));
    TurnMarked(s, s', n);
  }

  lemma TurnMarked(s: Sys, s': Sys, n: string)
    requires LoopOk(s) && DoTurn(s, s', n)
    ensures n in s.core.procs && s.core.procs[n].stopRequested
  {
    assert Stopped(s, n);
  }

  lemma ExitingHere(cfg: Config, s: Sys, r: Run)
    requires Inv(cfg, s) && Guarded(cfg, s, ExitStep(r))
    ensures s.core.procs[r.name].runner.Some? && !Launching(At(s.holder, r.name))
  {
    hide Frame;
    assert UnitOk(ViewOf(s, r.name));
    assert WaiterOk(Own(s, r), r.gen, TheWaiter(s, r));
  }

  /** States and exit codes mean what they say at every point of every run. */
  lemma {:induction false} StatesMean(cfg: Config, trace: seq<Sys>, steps: seq<Step>, i: nat, n: string)
    requires Trace(cfg, trace, steps) && i < |trace| && n in cfg.deps
    ensures Meaningful(trace[i], n)
  {
    hide Next, Inv, Meaningful, LoopOk;
    if i == 0 {
      MeaningInit(cfg, trace[0], n);
    } else {
      StatesMean(cfg, trace, steps, i - 1, n);
      RunKeepsLoop(cfg, trace, steps, i - 1);
      StepOf(cfg, trace, steps, i - 1);
      assert Next(cfg, trace[i - 1], trace[i - 1 + 1], steps[i - 1]);
      MeaningKeeps(cfg, trace[i - 1], trace[i], steps[i - 1], n);
    }
  }

  lemma MeaningInit(cfg: Config, s: Sys, n: string)
    requires Init(cfg, s) && n in cfg.deps
    ensures Meaningful(s, n)
  {
  }

  /** What may change the state of process n from before to after. */
  ghost predicate StateMoves(s: Sys, step: Step, n: string, before: PState, after: PState) {
    match step
    case SkipStep => s.holder.Busy? && s.holder.pc == SkipAt(n) && after == Skipped
    case LaunchStep(_) => s.holder.Busy? && s.holder.pc == Begin(n) && (Terminal(before) || before.Pending?) && after == Starting
    case CommitStep => s.holder.Busy? && s.holder.pc == CommitAt(n) && after == Running
    case FailStep => s.holder.Busy? && s.holder.pc == Fail(n) && after == Failed
    case MarkStep => s.holder.Busy? && n in StopList(s.holder.op) && before.Pending? && after == Exited
    case TurnStep(m) => m == n && (before.Running? || before.Starting?) && after == Stopping
    case ExitStep(r) => r.name == n && (before.Running? || before.Stopping?) && (after == Pending || after == Exited || after == Failed)
    case _ => false
  }

  lemma AtIs(h: Holder, n: string)
    ensures At(h, n).Return? || (h.Busy? && h.pc == At(h, n))
    ensures match At(h, n) case SkipAt(m) => m == n case Begin(m) => m == n case CommitAt(m) => m == n case Fail(m) => m == n case _ => true
    ensures h.Busy? && h.pc.Mark? ==> At(h, n).Return?
  {
  }

  lemma HolderMovesState(cfg: Config, s: Sys, step: Step, n: string)
    requires n in s.core.procs && RunOf(step).None? && StateMeans(s.core.procs[n], At(s.holder, n)) && Grounds(s.core.procs[n], At(s.holder, n))
    requires step.MarkStep? ==> s.holder.Busy? && s.holder.pc.Mark?
    requires step == TurnStep(n) ==> s.core.procs[n].runner.Some?
    ensures var p, p' := s.core.procs[n], RecordAfter(cfg, s, step, n);
            p'.state != p.state ==> StateMoves(s, step, n, p.state, p'.state)
  {
    hide HasWaiter, TheWaiter, StopList, At, RecordAfter, RunOf;
    AtIs(s.holder, n);
    HolderRecord(cfg, s, step, n);
  }

  lemma WaiterMovesState(cfg: Config, s: Sys, step: Step, n: string)
    requires n in s.core.procs && n in s.waiters && RunOf(step).Some? && Guarded(cfg, s, step)
    requires StateMeans(s.core.procs[n], At(s.holder, n))
    requires step.ExitStep? && step.run.name == n ==> s.core.procs[n].runner.Some? && !Launching(At(s.holder, n)) && !At(s.holder, n).Fail?
    ensures var p, p' := s.core.procs[n], RecordAfter(cfg, s, step, n);
            p'.state != p.state ==> StateMoves(s, step, n, p.state, p'.state)
  {
    hide At, ExitRestarts, ShouldRestart, ViewOf, Ahead, TimerOf;
  }

  /** A final state stays until the process is launched again, skipped, or its start fails; a stop
      ends what is pending and leaves every other final state as it is. */
  lemma StatesMove(cfg: Config, trace: seq<Sys>, steps: seq<Step>, i: nat, n: string)
    requires Trace(cfg, trace, steps) && i < |steps| && n in cfg.deps
    ensures n in trace[i].core.procs && n in trace[i + 1].core.procs
    ensures var before, after := trace[i].core.procs[n].state, trace[i + 1].core.procs[n].state;
            before != after ==> StateMoves(trace[i], steps[i], n, before, after)
  {
    hide Next, Inv, Init, UnitOk, At, StateMeans, CodeMeans, Grounds, RecordAfter, WaitersAfter, Approached, Guarded, RunOf, StateMoves;
    StepOf(cfg, trace, steps, i);
    var s, s', step := trace[i], trace[i + 1], steps[i];
    KeysHere(cfg, s);
    StatesMean(cfg, trace, steps, i, n);
    Effects(cfg, s, s', step, n);
    UnitOf(cfg, s, n);
    GroundsHere(s, n);
    if RunOf(step).None? {
      if step.MarkStep? || step.TurnStep? { TurnsStep(cfg, s, s', step); StopPlaces(s, s', step, cfg); }
      HolderMovesState(cfg, s, step, n);
    } else {
      NextGuarded(cfg, s, s', step);
      if step.ExitStep? && step.run.name == n { ExitingHere(cfg, s, step.run); ExitingElsewhere(cfg, s, step.run); }
      WaiterMovesState(cfg, s, step, n);
    }
  }

  lemma StopPlaces(s: Sys, s': Sys, step: Step, cfg: Config)
    requires TurnNext(cfg, s, s', step) && (step.MarkStep? || step.TurnStep?)
    ensures s.holder.Busy? && (step.MarkStep? ==> s.holder.pc.Mark?)
    ensures step.TurnStep? ==> s.holder.pc.StopNext? && step.name in s.core.procs && s.core.procs[step.name].runner.Some?
  {
    hide MarkOne, MarkEvents, TurnStopping, Changed, MarkStopped;
  }

  lemma ExitingElsewhere(cfg: Config, s: Sys, r: Run)
    requires Inv(cfg, s) && Guarded(cfg, s, ExitStep(r))
    ensures !At(s.holder, r.name).Fail?
  {
    hide Frame;
    assert UnitOk(ViewOf(s, r.name));
    assert WaiterOk(Own(s, r), r.gen, TheWaiter(s, r));
  }

  // ---------- Restarts are counted ----------

  lemma HolderSectionsCount(p: Proc)
    ensures MarkOne(p).restarts == TurnStopping(p).restarts == Admit(p).restarts == Skip(p).restarts == Commit(p).restarts == p.restarts
    ensures FailStart(p).restarts == p.restarts && forall spec :: Launch(p, spec).restarts == p.restarts
  {
  }

  lemma WaiterSectionsCount(p: Proc)
    ensures forall f :: CloseFinished(p, f).restarts == p.restarts
    ensures forall k :: LeaveTimer(p, k).restarts == p.restarts
    ensures forall retains :: AddLog(p, retains).restarts == p.restarts
  {
  }

  lemma RestartsRecord(cfg: Config, s: Sys, step: Step, n: string)
    requires n in s.core.procs && !(step.ExitStep? && step.run.name == n)
    ensures RecordAfter(cfg, s, step, n).restarts == s.core.procs[n].restarts
  {
    hide MarkOne, TurnStopping, Admit, Skip, Commit, FailStart, Launch, LeaveTimer, Exit, CloseFinished, AddLog, ExitRestarts,
         HasWaiter, TheWaiter, At, StopList;
    HolderSectionsCount(s.core.procs[n]);
    WaiterSectionsCount(s.core.procs[n]);
  }

  /** The restart counter of a process counts the exits that were followed by a reservation. */
  lemma RestartsCounted(cfg: Config, trace: seq<Sys>, steps: seq<Step>, i: nat, n: string)
    requires Trace(cfg, trace, steps) && i < |steps| && n in cfg.deps
    ensures n in trace[i].core.procs && n in trace[i + 1].core.procs
    ensures var step := steps[i];
            trace[i + 1].core.procs[n].restarts == trace[i].core.procs[n].restarts +
              if step.ExitStep? && step.run.name == n && HasWaiter(trace[i], step.run) && TheWaiter(trace[i], step.run).phase.Done?
                 && n in cfg.policy && Reserves(cfg, trace[i], step.run) then 1 else 0
  {
    hide Next, Inv, Init, RecordAfter, WaitersAfter, Approached, Reserves;
    StepOf(cfg, trace, steps, i);
    KeysHere(cfg, trace[i]);
    Effects(cfg, trace[i], trace[i + 1], steps[i], n);
    if steps[i].ExitStep? && steps[i].run.name == n { ExitDecides(cfg, trace, steps, i); }
    else { RestartsRecord(cfg, trace[i], steps[i], n); }
  }

  // ---------- Stopping ----------

  /** A stop turns to a process only when everything that depends on it has stopped, unless
      stopping something has failed before. */
  lemma StopsDependentsFirst(cfg: Config, trace: seq<Sys>, steps: seq<Step>, i: nat, n: string, y: string)
    requires Trace(cfg, trace, steps) && i < |steps| && steps[i] == TurnStep(n)
    requires trace[i].holder.Busy? && !trace[i].holder.failed && Edge(cfg.deps, y, n)
    ensures y in trace[i].core.procs && Down(trace[i].core.procs[y])
  {
    hide Next, Inv, Init, LoopOk;
    StepOf(cfg, trace, steps, i);
    RunKeepsLoop(cfg, trace, steps, i);
    TurnsStep(cfg, trace[i], trace[i + 1], steps[i]);
    DependentStopped(cfg, trace[i], n, y);
  }

  lemma DependentStopped(cfg: Config, s: Sys, n: string, y: string)
    requires Inv(cfg, s) && LoopOk(s) && AtTurn(s, n) && !s.holder.failed && Edge(cfg.deps, y, n)
    ensures y in s.core.procs && Down(s.core.procs[y])
  {
    hide Units, ConfigOk, DoneOk, IsStartOrder, UnitOk;
    var order, k := StopList(s.holder.op), s.holder.index;
    assert order[k] == n;
    OrderOf(cfg, s);
    assert y in order;
    var j :| 0 <= j < |order| && order[j] == y;
    BeforeInOrder(cfg.deps, order, j, k);
    assert StoppedIdle(s, order[j]);
    StoppedDownHere(cfg, s, y);
  }

  lemma OrderOf(cfg: Config, s: Sys)
    requires Frame(cfg, s) && s.holder.Busy? && InStop(s.holder.pc)
    ensures Covers(cfg, StopList(s.holder.op))
  {
    hide Covers, ConfigOk, DoneOk, IsStartOrder;
  }

  lemma BeforeInOrder(deps: Deps, order: seq<string>, j: nat, k: nat)
    requires DependentsFirst(deps, order) && j < |order| && k < |order| && Edge(deps, order[j], order[k])
    ensures j < k
  {
  }

  lemma StoppedDownHere(cfg: Config, s: Sys, n: string)
    requires Inv(cfg, s) && n in s.core.procs && s.core.procs[n].stopRequested && s.core.procs[n].runner.None?
    ensures Down(s.core.procs[n])
  {
    hide UnitOk, Frame;
    KeysHere(cfg, s);
    UnitOf(cfg, s, n);
    StoppedDown(ViewOf(s, n));
  }
}
