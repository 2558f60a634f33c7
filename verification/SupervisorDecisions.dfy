/** Every choice the supervisor makes, with the reason for it: what is refused, skipped,
    given up or left stopped is so for a cause a user can see, and whatever has no such cause
    happens. Conditions are written out here in terms of the recorded facts. */
module SupervisorDecisions {
  import opened DependencyGraph
  import opened StopOrder
  import opened Lifecycle
  import opened Options
  import opened SupervisorMachine
  import opened SupervisorUnit
  import opened SupervisorInvariant
  import opened SupervisorEffects
  import opened SupervisorDependencies
  import opened SupervisorStops
  import opened SupervisorEvents

  // A step is taken by the part of the program it belongs to.

  lemma CommandStep(cfg: Config, s: Sys, s': Sys, step: Step)
    requires Next(cfg, s, s', step) && (step.StartCmd? || step.StopCmd? || step.RestartCmd? || step.StopAllCmd? || step.DoneTake?)
    ensures CommandNext(cfg, s, s', step)
  {
    hide DoRunBegin, DoStartCmd, DoStopCmd, DoRestartCmd, DoStopAllCmd, DoDoneTake, DoInitialEnd, DoStopEnd,
         DoStopReturns, DoJoin, DoPass, DoRestartContext, DoResumeRead, DoResume, DoContext, DoReject,
         DoHolderEmit, DoPick, DoSkip, DoMark, DoTurn, DoAdmit, DoReturn, DoWait, DoRefuse, DoLaunch, DoExec,
         DoCommit, DoSpawn, DoFail, DoWaiterEmit, DoForwardAdd, DoForwardEmit, DoOutput, DoProcessExit, DoTimerFires,
         DoExit, DoStale, DoClose, DoReserve, DoCancelSeen, DoTimerTake, DoTimerLapse, DoWatch, DoAnnounce, DoCloseEvents;
  }

  lemma MoveStep(cfg: Config, s: Sys, s': Sys, step: Step)
    requires Next(cfg, s, s', step) && (step.InitialEndStep? || step.StopEndStep? || step.StopReturns? || step.PassStep? || step.RestartContextStep? || step.ResumeReadStep? || step.ContextStep? || step.RejectStep?)
    ensures MoveNext(cfg, s, s', step)
  {
    hide DoRunBegin, DoStartCmd, DoStopCmd, DoRestartCmd, DoStopAllCmd, DoDoneTake, DoInitialEnd, DoStopEnd,
         DoStopReturns, DoJoin, DoPass, DoRestartContext, DoResumeRead, DoResume, DoContext, DoReject,
         DoHolderEmit, DoPick, DoSkip, DoMark, DoTurn, DoAdmit, DoReturn, DoWait, DoRefuse, DoLaunch, DoExec,
         DoCommit, DoSpawn, DoFail, DoWaiterEmit, DoForwardAdd, DoForwardEmit, DoOutput, DoProcessExit, DoTimerFires,
         DoExit, DoStale, DoClose, DoReserve, DoCancelSeen, DoTimerTake, DoTimerLapse, DoWatch, DoAnnounce, DoCloseEvents;
  }

  lemma TurnsStep(cfg: Config, s: Sys, s': Sys, step: Step)
    requires Next(cfg, s, s', step) && (step.PickStep? || step.SkipStep? || step.MarkStep? || step.TurnStep? || step.AdmitStep? || step.ReturnStep?)
    ensures TurnNext(cfg, s, s', step)
  {
    hide DoRunBegin, DoStartCmd, DoStopCmd, DoRestartCmd, DoStopAllCmd, DoDoneTake, DoInitialEnd, DoStopEnd,
         DoStopReturns, DoJoin, DoPass, DoRestartContext, DoResumeRead, DoResume, DoContext, DoReject,
         DoHolderEmit, DoPick, DoSkip, DoMark, DoTurn, DoAdmit, DoReturn, DoWait, DoRefuse, DoLaunch, DoExec,
         DoCommit, DoSpawn, DoFail, DoWaiterEmit, DoForwardAdd, DoForwardEmit, DoOutput, DoProcessExit, DoTimerFires,
         DoExit, DoStale, DoClose, DoReserve, DoCancelSeen, DoTimerTake, DoTimerLapse, DoWatch, DoAnnounce, DoCloseEvents;
  }

  lemma StartStep(cfg: Config, s: Sys, s': Sys, step: Step)
    requires Next(cfg, s, s', step) && (step.RefuseStep? || step.LaunchStep? || step.ExecStep? || step.CommitStep? || step.SpawnStep? || step.FailStep?)
    ensures StartNext(cfg, s, s', step)
  {
    hide DoRunBegin, DoStartCmd, DoStopCmd, DoRestartCmd, DoStopAllCmd, DoDoneTake, DoInitialEnd, DoStopEnd,
         DoStopReturns, DoJoin, DoPass, DoRestartContext, DoResumeRead, DoResume, DoContext, DoReject,
         DoHolderEmit, DoPick, DoSkip, DoMark, DoTurn, DoAdmit, DoReturn, DoWait, DoRefuse, DoLaunch, DoExec,
         DoCommit, DoSpawn, DoFail, DoWaiterEmit, DoForwardAdd, DoForwardEmit, DoOutput, DoProcessExit, DoTimerFires,
         DoExit, DoStale, DoClose, DoReserve, DoCancelSeen, DoTimerTake, DoTimerLapse, DoWatch, DoAnnounce, DoCloseEvents;
  }

  lemma EndStep(cfg: Config, s: Sys, s': Sys, step: Step)
    requires Next(cfg, s, s', step) && (step.ExitStep? || step.CloseStep? || step.ReserveStep? || step.CancelSeen? || step.TimerTake? || step.TimerLapse?)
    ensures EndNext(cfg, s, s', step)
  {
    hide DoRunBegin, DoStartCmd, DoStopCmd, DoRestartCmd, DoStopAllCmd, DoDoneTake, DoInitialEnd, DoStopEnd,
         DoStopReturns, DoJoin, DoPass, DoRestartContext, DoResumeRead, DoResume, DoContext, DoReject,
         DoHolderEmit, DoPick, DoSkip, DoMark, DoTurn, DoAdmit, DoReturn, DoWait, DoRefuse, DoLaunch, DoExec,
         DoCommit, DoSpawn, DoFail, DoWaiterEmit, DoForwardAdd, DoForwardEmit, DoOutput, DoProcessExit, DoTimerFires,
         DoExit, DoStale, DoClose, DoReserve, DoCancelSeen, DoTimerTake, DoTimerLapse, DoWatch, DoAnnounce, DoCloseEvents;
  }

  lemma StepOf(cfg: Config, trace: seq<Sys>, steps: seq<Step>, i: nat)
    requires Trace(cfg, trace, steps) && i < |steps|
    ensures |trace| == |steps| + 1 && Next(cfg, trace[i], trace[i + 1], steps[i]) && Inv(cfg, trace[i])
  {
    hide Next, Inv, Init;
    RunKeeps(cfg, trace, steps, i);
  }

  // ---------- Which processes are started ----------

  /** A dependency that is not up: it never reached running, or was skipped. */
  predicate NotUp(s: Sys, d: string) {
    d in s.core.procs && (!s.core.procs[d].reached || s.core.procs[d].state.Skipped?)
  }

  ghost predicate Blocked(cfg: Config, s: Sys, n: string) {
    n in cfg.deps && exists d :: d in cfg.deps[n] && NotUp(s, d)
  }

  lemma BlockedIsNotReady(cfg: Config, s: Sys, n: string)
    requires Frame(cfg, s) && n in cfg.deps
    ensures DepsReady(cfg, s.core, n) <==> !Blocked(cfg, s, n)
  {
    hide DoneOk, OpOk;
    forall d | d in cfg.deps[n] ensures d in s.core.procs {
      assert Edge(cfg.deps, n, d);
    }
    if !DepsReady(cfg, s.core, n) {
      var d :| d in cfg.deps[n] && !(d in s.core.procs && s.core.procs[d].reached && !s.core.procs[d].state.Skipped?);
      assert NotUp(s, d);
    }
  }

  /** The initial start passes a process over exactly when one of its dependencies is not up. */
  lemma PickDecides(cfg: Config, trace: seq<Sys>, steps: seq<Step>, i: nat)
    requires Trace(cfg, trace, steps) && i < |steps| && steps[i].PickStep?
    ensures trace[i].holder.Busy? && trace[i].holder.op.OpInitial? && trace[i].holder.index < |trace[i].holder.op.names|
    ensures var n := trace[i].holder.op.names[trace[i].holder.index];
            && trace[i + 1] == trace[i].(holder := trace[i].holder.(pc := trace[i + 1].holder.pc))
            && trace[i + 1].holder.pc == if Blocked(cfg, trace[i], n) then SkipAt(n) else Begin(n)
  {
    hide Next, Inv, Trace, DepsReady, Blocked;
    StepOf(cfg, trace, steps, i);
    TurnsStep(cfg, trace[i], trace[i + 1], steps[i]);
    InvFrame(cfg, trace[i]);
    PickedKnown(cfg, trace[i]);
    BlockedIsNotReady(cfg, trace[i], trace[i].holder.op.names[trace[i].holder.index]);
  }

  lemma PickedKnown(cfg: Config, s: Sys)
    requires Frame(cfg, s) && AtInitial(s) && s.holder.index < |s.holder.op.names|
    ensures s.holder.op.names[s.holder.index] in cfg.deps
  {
    hide DoneOk, ConfigOk, DependenciesFirst;
  }

  /** A process that is passed over becomes Skipped and makes the run a failed one. */
  lemma SkipLeaves(cfg: Config, trace: seq<Sys>, steps: seq<Step>, i: nat)
    requires Trace(cfg, trace, steps) && i < |steps| && steps[i].SkipStep?
    ensures trace[i].holder.Busy? && trace[i].holder.pc.SkipAt?
    ensures var n := trace[i].holder.pc.name;
            && n in trace[i + 1].core.procs && trace[i + 1].core.procs[n].state.Skipped? && trace[i + 1].core.hadFailed
            && trace[i + 1].holder.Busy? && trace[i + 1].holder.index == trace[i].holder.index + 1
  {
    hide Next, Inv, Trace;
    StepOf(cfg, trace, steps, i);
    TurnsStep(cfg, trace[i], trace[i + 1], steps[i]);
  }

  /** The initial start ends early only because of cancellation. */
  lemma InitialEndsForReason(cfg: Config, trace: seq<Sys>, steps: seq<Step>, i: nat)
    requires Trace(cfg, trace, steps) && i < |steps| && steps[i].InitialEndStep?
    ensures trace[i].holder.Busy? && trace[i].holder.op.OpInitial?
    ensures trace[i].holder.index == |trace[i].holder.op.names| || trace[i].ctxDone
  {
    hide Next, Inv, Trace;
    StepOf(cfg, trace, steps, i);
    MoveStep(cfg, trace[i], trace[i + 1], steps[i]);
    InvFrame(cfg, trace[i]);
    InitialIndex(cfg, trace[i]);
  }

  lemma InitialIndex(cfg: Config, s: Sys)
    requires Frame(cfg, s) && s.holder.Busy? && s.holder.op.OpInitial?
    ensures s.holder.index <= |s.holder.op.names|
  {
    hide DoneOk, ConfigOk, IsStartOrder;
  }

  /** The supervisor is going down, or was never up. */
  predicate Shut(s: Sys) {
    s.phase.NotCalled? || s.core.stopping || s.ctxDone
  }

  /** What a user may be told by StartProcess instead of a start. */
  ghost predicate NotStartable(cfg: Config, s: Sys, n: string) {
    || n !in s.core.procs
    || s.core.procs[n].runner.Some?
    || s.core.procs[n].state.Starting? || s.core.procs[n].state.Running? || s.core.procs[n].state.Stopping?
    || Blocked(cfg, s, n)
  }

  lemma StartableMeans(cfg: Config, s: Sys, n: string)
    requires Frame(cfg, s)
    ensures Startable(cfg, s.core, n) <==> !NotStartable(cfg, s, n)
  {
    hide DepsReady, Blocked, DoneOk, OpOk;
    if n in s.core.procs { BlockedIsNotReady(cfg, s, n); }
  }

  /** A manual start goes past its first check exactly while the supervisor is up. */
  lemma ContextDecides(cfg: Config, trace: seq<Sys>, steps: seq<Step>, i: nat)
    requires Trace(cfg, trace, steps) && i < |steps| && steps[i].ContextStep?
    ensures trace[i].holder.Busy? && trace[i].holder.pc.ManualContext?
    ensures trace[i + 1].holder.Busy?
    ensures if Shut(trace[i]) then trace[i + 1].holder.failed else trace[i + 1].holder.pc == ManualGate(trace[i].holder.pc.name)
  {
    hide Next, Inv, Trace;
    StepOf(cfg, trace, steps, i);
    MoveStep(cfg, trace[i], trace[i + 1], steps[i]);
    InvFrame(cfg, trace[i]);
    ManualOp(cfg, trace[i]);
  }

  lemma ManualOp(cfg: Config, s: Sys)
    requires Frame(cfg, s) && s.holder.Busy? && (s.holder.pc.ManualContext? || s.holder.pc.ManualGate?)
    ensures s.holder.op.OpStart? || s.holder.op.OpRestart?
  {
    hide DoneOk, ConfigOk, IsStartOrder, Covers;
  }

  /** A manual start is rejected exactly when the process is active or a dependency is not up;
      otherwise its pending restart is withdrawn and it waits for the last exit only. */
  lemma GateDecides(cfg: Config, trace: seq<Sys>, steps: seq<Step>, i: nat)
    requires Trace(cfg, trace, steps) && i < |steps| && (steps[i].AdmitStep? || steps[i].RejectStep?)
    ensures trace[i].holder.Busy? && trace[i].holder.pc.ManualGate? && trace[i + 1].holder.Busy?
    ensures var n := trace[i].holder.pc.name;
            && (steps[i].RejectStep? <==> NotStartable(cfg, trace[i], n))
            && if NotStartable(cfg, trace[i], n) then trace[i + 1].holder.failed && trace[i + 1].core == trace[i].core
               else trace[i + 1].holder.pc == ManualWait(n, trace[i].core.procs[n].finished)
  {
    hide Next, Inv, Trace, NotStartable, Startable;
    StepOf(cfg, trace, steps, i);
    if steps[i].AdmitStep? { TurnsStep(cfg, trace[i], trace[i + 1], steps[i]); } else { MoveStep(cfg, trace[i], trace[i + 1], steps[i]); }
    InvFrame(cfg, trace[i]);
    ManualOp(cfg, trace[i]);
    StartableMeans(cfg, trace[i], trace[i].holder.pc.name);
    if !NotStartable(cfg, trace[i], trace[i].holder.pc.name) { StartableKnown(cfg, trace[i], trace[i].holder.pc.name); }
  }

  lemma StartableKnown(cfg: Config, s: Sys, n: string)
    requires !NotStartable(cfg, s, n)
    ensures n in s.core.procs
  {
    hide Blocked;
  }

  /** startProcess refuses exactly while the supervisor is going down; otherwise it launches. */
  lemma BeginDecides(cfg: Config, trace: seq<Sys>, steps: seq<Step>, i: nat)
    requires Trace(cfg, trace, steps) && i < |steps| && (steps[i].RefuseStep? || steps[i].LaunchStep?)
    ensures trace[i].holder.Busy? && trace[i].holder.pc.Begin?
    ensures steps[i].RefuseStep? <==> trace[i].core.stopping || trace[i].ctxDone
  {
    hide Next, Inv, Trace;
    StepOf(cfg, trace, steps, i);
    StartStep(cfg, trace[i], trace[i + 1], steps[i]);
  }

  // ---------- A new run has not been cancelled ----------

  /** The token of a live run stands, and a timer's run has published its exit. */
  predicate Fresh(v: View) {
    && (v.p.runner.Some? ==> v.p.gen !in v.p.cancelled)
    && (v.timer.Some? ==> v.timer.value in v.p.closed)
  }

  lemma HolderSectionsClose(p: Proc)
    ensures MarkOne(p).closed == TurnStopping(p).closed == Admit(p).closed == Skip(p).closed == Commit(p).closed == p.closed
    ensures p.closed <= FailStart(p).closed && forall spec :: Launch(p, spec).closed == p.closed
  {
  }

  lemma WaiterSectionsClose(p: Proc)
    ensures forall restart, outcome :: Exit(p, restart, outcome).closed == p.closed
    ensures forall f :: p.closed <= CloseFinished(p, f).closed
    ensures forall k :: LeaveTimer(p, k).closed == p.closed
    ensures forall retains :: AddLog(p, retains).closed == p.closed
  {
  }

  lemma ClosedGrows(cfg: Config, s: Sys, step: Step, n: string)
    requires n in s.core.procs
    ensures s.core.procs[n].closed <= RecordAfter(cfg, s, step, n).closed
  {
    hide MarkOne, TurnStopping, Admit, Skip, Commit, FailStart, Launch, LeaveTimer, Exit, CloseFinished, AddLog, ExitRestarts,
         HasWaiter, TheWaiter, At;
    HolderSectionsClose(s.core.procs[n]);
    WaiterSectionsClose(s.core.procs[n]);
  }

  /** Only the waiter itself, or an operation that ends the wait, cancels a token. */
  lemma TokenStands(cfg: Config, s: Sys, step: Step, n: string)
    requires n in s.core.procs && n in s.waiters && UnitOk(ViewOf(s, n)) && Fresh(ViewOf(s, n)) && Guarded(cfg, s, step)
    ensures var p' := RecordAfter(cfg, s, step, n); p'.runner.Some? ==> p'.gen !in p'.cancelled
  {
    hide UnitOk, Guarded, Fresh, RecordAfter, RunOf;
    if RunOf(step).Some? { WaiterToken(cfg, s, step, n); } else { HolderToken(cfg, s, step, n); }
  }

  lemma HolderToken(cfg: Config, s: Sys, step: Step, n: string)
    requires n in s.core.procs && n in s.waiters && UnitOk(ViewOf(s, n)) && Fresh(ViewOf(s, n)) && RunOf(step).None?
    ensures var p' := RecordAfter(cfg, s, step, n); p'.runner.Some? ==> p'.gen !in p'.cancelled
  {
    hide RestOk, StopOk, WaiterOk, HolderOk, Untouched, Ahead;
  }

  lemma WaiterToken(cfg: Config, s: Sys, step: Step, n: string)
    requires n in s.core.procs && n in s.waiters && UnitOk(ViewOf(s, n)) && Fresh(ViewOf(s, n)) && Guarded(cfg, s, step)
    requires RunOf(step).Some?
    ensures var p' := RecordAfter(cfg, s, step, n); p'.runner.Some? ==> p'.gen !in p'.cancelled
  {
    hide ExitState, ExitRestarts, RestOk, StopOk, HolderOk, Untouched, Ahead, At, TimerOf;
    if step.TimerLapse? || step.CancelSeen? {
      var r := step.run;
      if r.name == n { assert WaiterOk(s.core.procs[n], r.gen, TheWaiter(s, r)); }
    }
  }

  lemma TimerAfter(cfg: Config, s: Sys, s': Sys, step: Step, n: string)
    requires Frame(cfg, s) && Next(cfg, s, s', step)
    ensures TimerOf(s'.holder, n).Some? ==>
      TimerOf(s'.holder, n) == TimerOf(s.holder, n) || (step.TimerTake? && step.run == Run(n, TimerOf(s'.holder, n).value))
  {
    hide Frame, CommandNext, MoveNext, TurnNext, StartNext, OutputNext, EndNext, RunNext;
    if CommandNext(cfg, s, s', step) { CommandTimer(cfg, s, s', step); }
    else if MoveNext(cfg, s, s', step) { MoveFrame(cfg, s, s', step); }
    else if TurnNext(cfg, s, s', step) { TurnFrame(cfg, s, s', step); }
    else if StartNext(cfg, s, s', step) { StartFrame(cfg, s, s', step); }
    else if OutputNext(cfg, s, s', step) { OutputFrame(cfg, s, s', step); }
    else if EndNext(cfg, s, s', step) { EndFrame(cfg, s, s', step); }
    else { RunFrame(cfg, s, s', step); }
  }

  lemma CommandTimer(cfg: Config, s: Sys, s': Sys, step: Step)
    requires CommandNext(cfg, s, s', step)
    ensures s'.holder.Busy? ==> !s'.holder.op.OpTimer?
  {
    hide IsStartOrder, IsFullStopOrder, IsStopOrder;
  }

  lemma FreshKeeps(cfg: Config, s: Sys, s': Sys, step: Step, n: string)
    requires Inv(cfg, s) && Next(cfg, s, s', step) && n in s.core.procs && n in s.waiters && Fresh(ViewOf(s, n))
    ensures n in s'.core.procs && n in s'.waiters && Fresh(ViewOf(s', n))
  {
    hide Next, Inv, UnitOk, RecordAfter, WaitersAfter, Approached, Guarded, At, Ahead, TimerOf;
    InvFrame(cfg, s);
    UnitOf(cfg, s, n);
    Effects(cfg, s, s', step, n);
    NextGuarded(cfg, s, s', step);
    ClosedGrows(cfg, s, step, n);
    TokenStands(cfg, s, step, n);
    TimerAfter(cfg, s, s', step, n);
    if step.TimerTake? && step.run.name == n { FiredClosed(cfg, s, step.run); }
  }

  lemma UnitOf(cfg: Config, s: Sys, n: string)
    requires Inv(cfg, s) && n in s.core.procs && n in s.waiters
    ensures UnitOk(ViewOf(s, n))
  {
    hide UnitOk, Frame;
  }

  lemma FiredClosed(cfg: Config, s: Sys, r: Run)
    requires Inv(cfg, s) && Guarded(cfg, s, TimerTake(r))
    ensures r.gen in s.core.procs[r.name].closed
  {
    hide Frame;
    assert UnitOk(ViewOf(s, r.name));
    assert WaiterOk(Own(s, r), r.gen, TheWaiter(s, r));
  }

  lemma {:induction false} RunIsFresh(cfg: Config, trace: seq<Sys>, steps: seq<Step>, i: nat, n: string)
    requires Trace(cfg, trace, steps) && i < |trace| && n in trace[i].core.procs && n in trace[i].waiters
    ensures Fresh(ViewOf(trace[i], n))
  {
    hide Next, Inv, Fresh;
    if i == 0 {
      FreshInit(cfg, trace[0], n);
    } else {
      StepOf(cfg, trace, steps, i - 1);
      assert Next(cfg, trace[i - 1], trace[i - 1 + 1], steps[i - 1]);
      KeysOf(cfg, trace[i - 1], trace[i], steps[i - 1]);
      RunIsFresh(cfg, trace, steps, i - 1, n);
      FreshKeeps(cfg, trace[i - 1], trace[i], steps[i - 1], n);
    }
  }

  lemma FreshInit(cfg: Config, s: Sys, n: string)
    requires Init(cfg, s) && n in s.core.procs && n in s.waiters
    ensures Fresh(ViewOf(s, n))
  {
  }

  lemma KeysOf(cfg: Config, s: Sys, s': Sys, step: Step)
    requires Inv(cfg, s) && Next(cfg, s, s', step)
    ensures s.core.procs.Keys == s'.core.procs.Keys == s.waiters.Keys == s'.waiters.Keys == cfg.deps.Keys
  {
    hide Next, Units, ConfigOk, DoneOk, OpOk;
    NextKeeps(cfg, s, s', step);
  }

  // ---------- Exits ----------

  /** What a restart policy asks for after an exit with some code. */
  predicate Wants(policy: Policy, code: int) {
    match policy
    case Never => false
    case OnFailure => code != 0
    case Always => true
  }

  /** Whether the exit of a run leaves a reservation: not after a requested stop, not during
      shutdown, not when supervision has failed, and otherwise as the policy says. */
  predicate Reserves(cfg: Config, s: Sys, r: Run)
    requires HasWaiter(s, r) && TheWaiter(s, r).phase.Done? && r.name in cfg.policy
  {
    var outcome := TheWaiter(s, r).phase.outcome;
    && !s.core.stopping && !Own(s, r).stopRequested && !outcome.supervisionError
    && Wants(cfg.policy[r.name], outcome.code)
  }

  /** What an exit leaves behind, with a reservation or for good. */
  lemma ExitDecides(cfg: Config, trace: seq<Sys>, steps: seq<Step>, i: nat)
    requires Trace(cfg, trace, steps) && i < |steps| && steps[i].ExitStep?
    ensures var r, s, s' := steps[i].run, trace[i], trace[i + 1];
            && HasWaiter(s, r) && TheWaiter(s, r).phase.Done? && r.name in cfg.policy && HasWaiter(s', r)
            && var outcome, p, p' := TheWaiter(s, r).phase.outcome, Own(s, r), Own(s', r);
               && p'.runner.None? && TheWaiter(s', r).phase == Publishing(Reserves(cfg, s, r), p.finished)
               && if Reserves(cfg, s, r) then
                    && p'.state.Pending? && p'.restarting && p'.restartCancel == Some(r.gen) && r.gen !in p'.cancelled
                    && p'.restarts == p.restarts + 1 && p'.exitCode.None? && s'.core.hadFailed == s.core.hadFailed
                  else
                    && !p'.restarting && p'.restarts == p.restarts && p'.exitCode == Some(outcome.code)
                    && p'.state == (if p.stopRequested || (outcome.code == 0 && !outcome.supervisionError) then Exited else Failed)
                    && s'.core.hadFailed == (s.core.hadFailed || p'.state.Failed? || outcome.supervisionError)
  {
    hide Next, Inv, Trace, ExitEvents, AllDone;
    StepOf(cfg, trace, steps, i);
    EndStep(cfg, trace[i], trace[i + 1], steps[i]);
    ExitingFacts(cfg, trace[i], steps[i].run);
    RunIsFresh(cfg, trace, steps, i, steps[i].run.name);
  }

  lemma ExitingFacts(cfg: Config, s: Sys, r: Run)
    requires Inv(cfg, s) && HasWaiter(s, r) && TheWaiter(s, r).phase.Done?
    ensures var p := Own(s, r); p.gen == r.gen && !p.restarting && p.runner.Some?
  {
    hide Frame;
    assert UnitOk(ViewOf(s, r.name));
    assert WaiterOk(Own(s, r), r.gen, TheWaiter(s, r));
  }

  // ---------- Reservations and their timers ----------

  /** A fired timer that gets the lock launches its process unless its token was cancelled or
      the supervisor is going down. */
  lemma TimerDecides(cfg: Config, trace: seq<Sys>, steps: seq<Step>, i: nat)
    requires Trace(cfg, trace, steps) && i < |steps| && (steps[i].TimerTake? || steps[i].TimerLapse?)
    ensures var r, s := steps[i].run, trace[i];
            && HasWaiter(s, r) && TheWaiter(s, r).phase.Fired?
            && (steps[i].TimerLapse? <==> r.gen in Own(s, r).cancelled || s.core.stopping || s.ctxDone)
            && (steps[i].TimerTake? ==> trace[i + 1].holder.Busy? && trace[i + 1].holder.pc == Begin(r.name))
  {
    hide Next, Inv, Trace;
    StepOf(cfg, trace, steps, i);
    EndStep(cfg, trace[i], trace[i + 1], steps[i]);
    FiredStands(cfg, trace[i], steps[i].run);
  }

  lemma FiredStands(cfg: Config, s: Sys, r: Run)
    requires Inv(cfg, s) && HasWaiter(s, r) && (TheWaiter(s, r).phase.Fired? || TheWaiter(s, r).phase.Reserved?)
    ensures var p := Own(s, r); r.gen !in p.cancelled ==> p.gen == r.gen && p.restarting && !p.stopRequested
  {
    hide Frame;
    assert UnitOk(ViewOf(s, r.name));
    assert WaiterOk(Own(s, r), r.gen, TheWaiter(s, r));
  }

  /** A waiter gives up its reservation only when it was cancelled or the supervisor is. */
  lemma WaitEndsForReason(cfg: Config, trace: seq<Sys>, steps: seq<Step>, i: nat)
    requires Trace(cfg, trace, steps) && i < |steps| && steps[i].CancelSeen?
    ensures HasWaiter(trace[i], steps[i].run) && TheWaiter(trace[i], steps[i].run).phase.Reserved?
    ensures steps[i].run.gen in Own(trace[i], steps[i].run).cancelled || trace[i].ctxDone
  {
    hide Next, Inv, Trace;
    StepOf(cfg, trace, steps, i);
    EndStep(cfg, trace[i], trace[i + 1], steps[i]);
  }

  /** A process that is to be restarted has a waiter that will do it, or the timer at work, as
      long as the reservation stands. */
  predicate Awaited(v: View) {
    v.p.restarting ==>
      || v.p.gen in v.p.cancelled
      || (v.p.gen in v.ws && MayRestart(v.ws[v.p.gen]))
      || v.timer == Some(v.p.gen)
  }

  /** The same, of a record and the waiters a step leaves. */
  predicate StillAwaited(s: Sys, step: Step, n: string, p: Proc, ws: map<nat, Waiter>) {
    p.restarting ==>
      || p.gen in p.cancelled
      || (p.gen in ws && MayRestart(ws[p.gen]))
      || (TimerOf(s.holder, n) == Some(p.gen) && !step.ReturnStep?)
      || step == TimerTake(Run(n, p.gen))
  }

  lemma HolderAwaits(cfg: Config, s: Sys, step: Step, n: string)
    requires n in s.core.procs && n in s.waiters && UnitOk(ViewOf(s, n)) && Awaited(ViewOf(s, n)) && RunOf(step).None?
    ensures StillAwaited(s, step, n, RecordAfter(cfg, s, step, n), WaitersAfter(cfg, s, step, n))
  {
    hide HasWaiter, TheWaiter, WaiterAfter, StopOk, NumbersOk, Untouched, HolderOk, WaiterOk;
  }

  lemma WaiterAwaits(cfg: Config, s: Sys, step: Step, n: string)
    requires n in s.core.procs && n in s.waiters && Awaited(ViewOf(s, n)) && Guarded(cfg, s, step)
    requires RunOf(step).Some? && !Ends(step)
    ensures StillAwaited(s, step, n, RecordAfter(cfg, s, step, n), WaitersAfter(cfg, s, step, n))
  {
    hide ExitState, ExitEvents, ExitRestarts, At, Ahead, TimerOf;
  }

  lemma EndAwaits(cfg: Config, s: Sys, step: Step, n: string)
    requires n in s.core.procs && n in s.waiters && Awaited(ViewOf(s, n)) && Guarded(cfg, s, step)
    requires RunOf(step).Some? && Ends(step) && !step.StaleStep?
    requires step.CloseStep? ==> !TheWaiter(s, step.run).phase.restart
    ensures StillAwaited(s, step, n, RecordAfter(cfg, s, step, n), WaitersAfter(cfg, s, step, n))
  {
    hide At, Ahead, TimerOf, WaiterAfter;
  }

  lemma AwaitedAfter(cfg: Config, s: Sys, s': Sys, step: Step, n: string)
    requires Inv(cfg, s) && Next(cfg, s, s', step) && n in s.core.procs && n in s.waiters && Awaited(ViewOf(s, n))
    ensures StillAwaited(s, step, n, RecordAfter(cfg, s, step, n), WaitersAfter(cfg, s, step, n))
  {
    hide Inv, Next, UnitOk, Awaited, Guarded, StillAwaited, RecordAfter, WaitersAfter, RunOf, Ends, EndNext;
    UnitOf(cfg, s, n);
    NextGuarded(cfg, s, s', step);
    NotStale(cfg, s, s', step);
    if RunOf(step).None? {
      HolderAwaits(cfg, s, step, n);
    } else if Ends(step) {
      if step.CloseStep? { EndStep(cfg, s, s', step); ClosesForGood(cfg, s, s', step.run); }
      EndAwaits(cfg, s, step, n);
    } else {
      WaiterAwaits(cfg, s, step, n);
    }
  }

  lemma ClosesForGood(cfg: Config, s: Sys, s': Sys, r: Run)
    requires EndNext(cfg, s, s', CloseStep(r))
    ensures HasWaiter(s, r) && TheWaiter(s, r).phase.Publishing? && !TheWaiter(s, r).phase.restart
  {
  }

  /** Until it returns, a timer's operation goes on. */
  lemma TimerStays(cfg: Config, s: Sys, s': Sys, step: Step, n: string)
    requires Next(cfg, s, s', step) && !step.ReturnStep?
    ensures TimerOf(s.holder, n).Some? ==> TimerOf(s'.holder, n) == TimerOf(s.holder, n)
    ensures step.TimerTake? && step.run.name == n ==> TimerOf(s'.holder, n) == Some(step.run.gen)
  {
    hide CommandNext, MoveNext, TurnNext, StartNext, OutputNext, EndNext, RunNext;
    if step.TimerTake? { EndStep(cfg, s, s', step); EndTimer(cfg, s, s', step); }
    else if CommandNext(cfg, s, s', step) { CommandWhenFree(cfg, s, s', step); }
    else if MoveNext(cfg, s, s', step) { MoveFrame(cfg, s, s', step); }
    else if TurnNext(cfg, s, s', step) { TurnFrame(cfg, s, s', step); }
    else if StartNext(cfg, s, s', step) { StartFrame(cfg, s, s', step); }
    else if OutputNext(cfg, s, s', step) { OutputFrame(cfg, s, s', step); }
    else if EndNext(cfg, s, s', step) { EndFrame(cfg, s, s', step); }
    else { RunFrame(cfg, s, s', step); }
  }

  lemma EndTimer(cfg: Config, s: Sys, s': Sys, step: Step)
    requires EndNext(cfg, s, s', step) && step.TimerTake?
    ensures s.holder.Free? && s'.holder == Take(OpTimer(step.run), Begin(step.run.name))
  {
    hide TimerValid;
  }

  lemma CommandWhenFree(cfg: Config, s: Sys, s': Sys, step: Step)
    requires CommandNext(cfg, s, s', step)
    ensures s.holder.Free?
  {
    hide IsStartOrder, IsFullStopOrder, IsStopOrder;
  }

  lemma AwaitedKeeps(cfg: Config, s: Sys, s': Sys, step: Step, n: string)
    requires Inv(cfg, s) && Next(cfg, s, s', step) && n in s.core.procs && n in s.waiters && Awaited(ViewOf(s, n))
    ensures n in s'.core.procs && n in s'.waiters && Awaited(ViewOf(s', n))
  {
    hide Next, Inv, RecordAfter, WaitersAfter, Approached, At, Ahead, TimerOf, MayRestart;
    Effects(cfg, s, s', step, n);
    AwaitedAfter(cfg, s, s', step, n);
    if !step.ReturnStep? { TimerStays(cfg, s, s', step, n); }
  }

  lemma AwaitedInit(cfg: Config, s: Sys, n: string)
    requires Init(cfg, s) && n in s.core.procs && n in s.waiters
    ensures Awaited(ViewOf(s, n))
  {
  }

  lemma {:induction false} RunAwaits(cfg: Config, trace: seq<Sys>, steps: seq<Step>, i: nat, n: string)
    requires Trace(cfg, trace, steps) && i < |trace| && n in trace[i].core.procs && n in trace[i].waiters
    ensures Awaited(ViewOf(trace[i], n))
  {
    hide Next, Inv, Awaited;
    if i == 0 {
      AwaitedInit(cfg, trace[0], n);
    } else {
      StepOf(cfg, trace, steps, i - 1);
      assert Next(cfg, trace[i - 1], trace[i - 1 + 1], steps[i - 1]);
      KeysOf(cfg, trace[i - 1], trace[i], steps[i - 1]);
      RunAwaits(cfg, trace, steps, i - 1, n);
      AwaitedKeeps(cfg, trace[i - 1], trace[i], steps[i - 1], n);
    }
  }

  /** No reservation is forgotten: at every point of every run a process waiting to be
      restarted, whose token stands, has a waiter on its way to launch it, or its timer holds
      the operations lock. */
  lemma ReservationKept(cfg: Config, trace: seq<Sys>, steps: seq<Step>, i: nat, n: string)
    requires Trace(cfg, trace, steps) && i < |trace| && n in trace[i].core.procs
    requires var p := trace[i].core.procs[n]; p.restarting && p.gen !in p.cancelled
    ensures var s, r := trace[i], Run(n, trace[i].core.procs[n].gen);
            || (HasWaiter(s, r) && MayRestart(TheWaiter(s, r)))
            || (s.holder.Busy? && s.holder.op == OpTimer(r))
  {
    hide Next, Inv, Init;
    RunKeeps(cfg, trace, steps, i);
    KeysHere(cfg, trace[i]);
    RunAwaits(cfg, trace, steps, i, n);
  }

  lemma KeysHere(cfg: Config, s: Sys)
    requires Inv(cfg, s)
    ensures s.core.procs.Keys == s.waiters.Keys == cfg.deps.Keys
  {
    hide Units, ConfigOk, DoneOk, OpOk;
  }

  /** A token is cancelled by a stop that covers the process, by a manual start of it, by its own
      launch or the end of its timer's turn, or because the supervisor is going down. */
  lemma CancelledForReason(cfg: Config, trace: seq<Sys>, steps: seq<Step>, i: nat, n: string, g: nat)
    requires Trace(cfg, trace, steps) && i < |steps| && n in trace[i].core.procs && n in trace[i + 1].core.procs
    requires g !in trace[i].core.procs[n].cancelled && g in trace[i + 1].core.procs[n].cancelled
    ensures var s, step := trace[i], steps[i];
            || (step.MarkStep? && s.holder.Busy? && n in StopList(s.holder.op))
            || (step.AdmitStep? && s.holder.Busy? && s.holder.pc == ManualGate(n))
            || (step.LaunchStep? && s.holder.Busy? && s.holder.pc == Begin(n))
            || (step.ReturnStep? && s.holder.Busy? && s.holder.op == OpTimer(Run(n, g)))
            || (step == CancelSeen(Run(n, g)) && s.ctxDone)
            || (step == TimerLapse(Run(n, g)) && (s.core.stopping || s.ctxDone))
  {
    hide Next, Inv, Init, RecordAfter, WaitersAfter, Approached;
    StepOf(cfg, trace, steps, i);
    Effects(cfg, trace[i], trace[i + 1], steps[i], n);
    CancelledHow(cfg, trace[i], steps[i], n, g);
    if steps[i].CancelSeen? { WaitEndsForReason(cfg, trace, steps, i); }
    if steps[i].TimerLapse? { TimerDecides(cfg, trace, steps, i); }
  }

  lemma CancelledHow(cfg: Config, s: Sys, step: Step, n: string, g: nat)
    requires n in s.core.procs && g !in s.core.procs[n].cancelled && g in RecordAfter(cfg, s, step, n).cancelled
    ensures || (step.MarkStep? && s.holder.Busy? && n in StopList(s.holder.op))
            || (step.AdmitStep? && s.holder.Busy? && s.holder.pc == ManualGate(n))
            || (step.LaunchStep? && s.holder.Busy? && s.holder.pc == Begin(n))
            || (step.ReturnStep? && s.holder.Busy? && s.holder.op == OpTimer(Run(n, g)))
            || step == CancelSeen(Run(n, g))
            || step == TimerLapse(Run(n, g))
  {
    hide ExitState, ExitRestarts, HasWaiter, TheWaiter;
  }

}
