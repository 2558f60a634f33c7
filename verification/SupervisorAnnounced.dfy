/** Every change of a process's state is announced, once and with the new state, by the actor
    that makes it; and nothing else is announced as a change. */
module SupervisorAnnounced {
  import opened DependencyGraph
  import opened StopOrder
  import opened Lifecycle
  import opened Options
  import opened SupervisorMachine
  import opened SupervisorUnit
  import opened SupervisorInvariant
  import opened SupervisorEffects
  import opened SupervisorDependencies
  import opened SupervisorStops
  import opened SupervisorEvents
  import opened SupervisorDecisions

  /** The states announced for process n. */
  function States(events: seq<Event>, n: string): seq<PState> {
    if events == [] then []
    else
      var e := events[|events| - 1];
      States(events[..|events| - 1], n) + if e.StateChanged? && e.process == n then [e.state] else []
  }

  lemma {:induction false} StatesConcat(a: seq<Event>, b: seq<Event>, n: string)
    ensures States(a + b, n) == States(a, n) + States(b, n)
    decreases |b|
  {
    if b == [] {
      assert a + b == a;
    } else {
      assert (a + b)[..|a + b| - 1] == a + b[..|b| - 1];
      StatesConcat(a, b[..|b| - 1], n);
    }
  }

  lemma StatesOne(e: Event, n: string)
    ensures States([e], n) == if e.StateChanged? && e.process == n then [e.state] else []
  {
    assert States([], n) == [];
    assert [e][..0] == [];
  }

  /** What there is to announce when a state becomes another. */
  function Difference(before: PState, after: PState): seq<PState> {
    if before == after then [] else [after]
  }

  lemma ChangedStates(m: string, p: Proc, state: PState, n: string)
    ensures States(Changed(m, p, state), n) == if m == n then Difference(p.state, state) else []
  {
    if p.state != state { StatesOne(StateChanged(m, state), n); }
  }

  /** A change and one other event. */
  lemma ChangedAndMore(m: string, p: Proc, state: PState, e: Event, n: string)
    requires !e.StateChanged?
    ensures States(Changed(m, p, state) + [e], n) == if m == n then Difference(p.state, state) else []
  {
    hide Changed, States;
    StatesConcat(Changed(m, p, state), [e], n);
    ChangedStates(m, p, state, n);
    StatesOne(e, n);
  }

  // ---------- Marking a stop ----------

  function MarkedStates(core: Core, n: string): seq<PState>
    requires n in core.procs
  {
    Difference(core.procs[n].state, MarkOne(core.procs[n]).state)
  }

  lemma MarkEventStates(core: Core, m: string, n: string)
    requires n in core.procs
    ensures States(MarkEvent(core, m), n) == if m == n then MarkedStates(core, n) else []
  {
    if m in core.procs && core.procs[m].runner.None? && !Terminal(core.procs[m].state) { StatesOne(StateChanged(m, Exited), n); }
  }

  lemma {:induction false} MarkStates(core: Core, order: seq<string>, n: string)
    requires n in core.procs && Distinct(order)
    ensures States(MarkEvents(core, order), n) == if n in order then MarkedStates(core, n) else []
    decreases |order|
  {
    hide States, MarkedStates, MarkEvent;
    if order != [] {
      var front, m := order[..|order| - 1], order[|order| - 1];
      assert order == front + [m];
      DistinctFront(order);
      MarkStates(core, front, n);
      MarkEventStates(core, m, n);
      StatesConcat(MarkEvents(core, front), MarkEvent(core, m), n);
    } else {
      NoStates(n);
    }
  }

  lemma NoStates(n: string)
    ensures States([], n) == []
  {
  }

  lemma DistinctFront(order: seq<string>)
    requires order != [] && Distinct(order)
    ensures Distinct(order[..|order| - 1]) && order[|order| - 1] !in order[..|order| - 1]
  {
  }

  // ---------- One step ----------

  /** What the step's actor puts up for sending. */
  function NewEvents(s: Sys, s': Sys, step: Step): seq<Event> {
    if step.ExitStep? then (if HasWaiter(s', step.run) then TheWaiter(s', step.run).outbox else [])
    else if HolderOut(s) == [] then HolderOut(s')
    else []
  }

  /** The step announces the change of state of process n, and nothing else about its state. */
  ghost predicate Announces(s: Sys, s': Sys, step: Step, n: string)
    requires n in s.core.procs
  {
    n in s'.core.procs && States(NewEvents(s, s', step), n) == Difference(s.core.procs[n].state, s'.core.procs[n].state)
  }

  lemma SkipAnnounces(s: Sys, s': Sys, n: string)
    requires DoSkip(s, s') && n in s.core.procs
    ensures Announces(s, s', SkipStep, n)
  {
    hide States, Changed;
    var m := s.holder.pc.name;
    ChangedAndMore(m, s.core.procs[m], Skipped, ProcessSkipped(m), n);
  }

  lemma MarkAnnounces(s: Sys, s': Sys, n: string)
    requires DoMark(s, s') && n in s.core.procs && Distinct(StopList(s.holder.op))
    ensures Announces(s, s', MarkStep, n)
  {
    hide States, MarkEvents, StopList, Distinct;
    MarkStates(s.core, StopList(s.holder.op), n);
  }

  lemma TurnAnnounces(s: Sys, s': Sys, m: string, n: string)
    requires DoTurn(s, s', m) && n in s.core.procs
    ensures Announces(s, s', TurnStep(m), n)
  {
    hide States, Changed, StopList;
    ChangedStates(m, s.core.procs[m], Stopping, n);
  }

  lemma LaunchAnnounces(s: Sys, s': Sys, spec: bool, n: string)
    requires DoLaunch(s, s', spec) && n in s.core.procs
    ensures Announces(s, s', LaunchStep(spec), n)
  {
    hide States, Changed;
    var m := s.holder.pc.name;
    ChangedStates(m, s.core.procs[m], Starting, n);
  }

  lemma CommitAnnounces(s: Sys, s': Sys, n: string)
    requires DoCommit(s, s') && n in s.core.procs
    ensures Announces(s, s', CommitStep, n)
  {
    hide States, Changed;
    var m := s.holder.pc.name;
    ChangedAndMore(m, s.core.procs[m], Running, Started(m), n);
  }

  lemma FailAnnounces(s: Sys, s': Sys, n: string)
    requires DoFail(s, s') && n in s.core.procs
    ensures Announces(s, s', FailStep, n)
  {
    hide States, Changed, AllDone, CloseFinished;
    var m := s.holder.pc.name;
    ChangedAndMore(m, s.core.procs[m], Failed, SupervisorError(m), n);
  }

  predicate Telling(step: Step) {
    step.SkipStep? || step.MarkStep? || step.TurnStep? || step.LaunchStep? || step.CommitStep? || step.FailStep? || step.ExitStep?
  }

  // The steps that change no state.

  lemma StateKept(cfg: Config, s: Sys, step: Step, n: string)
    requires n in s.core.procs && !Telling(step)
    ensures RecordAfter(cfg, s, step, n).state == s.core.procs[n].state
  {
    hide HasWaiter, TheWaiter, At, StopList;
  }

  lemma TurnQuiet(cfg: Config, s: Sys, s': Sys, step: Step, n: string)
    requires TurnNext(cfg, s, s', step) && !Telling(step)
    ensures States(NewEvents(s, s', step), n) == []
  {
    hide DoSkip, DoMark, DoTurn, Admit, LeaveTimer, DepsReady, Startable;
    NoStates(n);
  }

  lemma MoveQuiet(cfg: Config, s: Sys, s': Sys, step: Step, n: string)
    requires MoveNext(cfg, s, s', step)
    ensures States(NewEvents(s, s', step), n) == []
  {
    hide AllDone, Startable, HasWaiter, ResumeSet, States;
    NoStates(n);
    if step == StopReturns(false) { StatesOne(HolderOut(s')[0], n); }
  }

  lemma StartQuiet(cfg: Config, s: Sys, s': Sys, step: Step, n: string)
    requires StartNext(cfg, s, s', step) && !Telling(step)
    ensures States(NewEvents(s, s', step), n) == []
  {
    hide DoLaunch, DoCommit, DoFail, States;
    NoStates(n);
  }

  lemma CommandQuiet(cfg: Config, s: Sys, s': Sys, step: Step, n: string)
    requires CommandNext(cfg, s, s', step)
    ensures States(NewEvents(s, s', step), n) == []
  {
    hide IsStartOrder, IsFullStopOrder, IsStopOrder, States;
    NoStates(n);
  }

  lemma OthersQuiet(cfg: Config, s: Sys, s': Sys, step: Step, n: string)
    requires OutputNext(cfg, s, s', step) || EndNext(cfg, s, s', step) || RunNext(cfg, s, s', step)
    requires !Telling(step)
    ensures States(NewEvents(s, s', step), n) == []
  {
    hide OutputNext, EndNext, RunNext, States;
    NoStates(n);
    if OutputNext(cfg, s, s', step) { OutputFrame(cfg, s, s', step); }
    else if EndNext(cfg, s, s', step) { EndFrame(cfg, s, s', step); }
    else { RunFrame(cfg, s, s', step); }
  }

  lemma QuietStep(cfg: Config, s: Sys, s': Sys, step: Step, n: string)
    requires Next(cfg, s, s', step) && !Telling(step)
    ensures States(NewEvents(s, s', step), n) == []
  {
    hide States, NewEvents, Telling, CommandNext, MoveNext, TurnNext, StartNext, OutputNext, EndNext, RunNext;
    if CommandNext(cfg, s, s', step) { CommandQuiet(cfg, s, s', step, n); }
    else if MoveNext(cfg, s, s', step) { MoveQuiet(cfg, s, s', step, n); }
    else if TurnNext(cfg, s, s', step) { TurnQuiet(cfg, s, s', step, n); }
    else if StartNext(cfg, s, s', step) { StartQuiet(cfg, s, s', step, n); }
    else { OthersQuiet(cfg, s, s', step, n); }
  }

  // ---------- The exit section ----------

  lemma TailStates(n: string, m: string, restart: bool, outcome: Outcome)
    ensures States(ExitTail(m, restart, outcome), n) == if m == n && restart then [Pending] else []
  {
    hide States;
    NoStates(n);
    var a := if outcome.supervisionError then [SupervisorError(m)] else [];
    var b := if restart then [StateChanged(m, Pending), RestartScheduled(m)] else [];
    assert ExitTail(m, restart, outcome) == a + b;
    StatesConcat(a, b, n);
    StatesOne(SupervisorError(m), n);
    if restart {
      assert b == [StateChanged(m, Pending)] + [RestartScheduled(m)];
      StatesConcat([StateChanged(m, Pending)], [RestartScheduled(m)], n);
      StatesOne(StateChanged(m, Pending), n);
      StatesOne(RestartScheduled(m), n);
    }
  }

  lemma ExitStates(m: string, p: Proc, restart: bool, outcome: Outcome, n: string)
    ensures States(ExitEvents(m, p, restart, outcome), n) ==
            if m == n then Difference(p.state, ExitState(p, outcome)) + (if restart then [Pending] else []) else []
  {
    hide States, Changed, ExitTail, ExitState;
    var state := ExitState(p, outcome);
    ExitSplit(m, p, restart, outcome);
    StatesConcat(Changed(m, p, state) + [ProcessExited(m, state)], ExitTail(m, restart, outcome), n);
    ChangedAndMore(m, p, state, ProcessExited(m, state), n);
    TailStates(n, m, restart, outcome);
  }

  /** How the run has ended for good: as asked, cleanly, or badly. */
  function FinalState(p: Proc, outcome: Outcome): PState {
    if p.stopRequested || (outcome.code == 0 && !outcome.supervisionError) then Exited else Failed
  }

  lemma ExitPlaces(cfg: Config, s: Sys, s': Sys, r: Run, n: string)
    requires Inv(cfg, s) && DoExit(cfg, s, s', r)
    ensures HasWaiter(s, r) && TheWaiter(s, r).phase.Done? && r.name in cfg.policy
    ensures States(NewEvents(s, s', ExitStep(r)), n) ==
            if r.name != n then []
            else [FinalState(Own(s, r), TheWaiter(s, r).phase.outcome)] + if Reserves(cfg, s, r) then [Pending] else []
  {
    hide Inv, States, AllDone, ExitEvents, Exit;
    var p, outcome := Own(s, r), TheWaiter(s, r).phase.outcome;
    ExitStates(r.name, p, ExitRestarts(cfg.policy[r.name], p, s.core.stopping, outcome), outcome, n);
    ExitingState(cfg, s, r);
  }

  lemma ExitingState(cfg: Config, s: Sys, r: Run)
    requires Inv(cfg, s) && HasWaiter(s, r) && TheWaiter(s, r).phase.Done?
    ensures !Terminal(Own(s, r).state)
  {
    hide Frame;
    assert UnitOk(ViewOf(s, r.name));
    assert WaiterOk(Own(s, r), r.gen, TheWaiter(s, r));
  }

  lemma TellingStep(cfg: Config, s: Sys, s': Sys, step: Step)
    requires Next(cfg, s, s', step)
    ensures step.SkipStep? ==> DoSkip(s, s')
    ensures step.MarkStep? ==> DoMark(s, s')
    ensures step.TurnStep? ==> DoTurn(s, s', step.name)
    ensures step.LaunchStep? ==> DoLaunch(s, s', step.spec)
    ensures step.CommitStep? ==> DoCommit(s, s')
    ensures step.FailStep? ==> DoFail(s, s')
    ensures step.ExitStep? ==> DoExit(cfg, s, s', step.run)
  {
    hide Next, DoSkip, DoMark, DoTurn, DoLaunch, DoCommit, DoFail, DoExit;
    if step.SkipStep? || step.MarkStep? || step.TurnStep? { TurnsStep(cfg, s, s', step); }
    else if step.LaunchStep? || step.CommitStep? || step.FailStep? { StartStep(cfg, s, s', step); }
    else if step.ExitStep? { EndStep(cfg, s, s', step); }
  }

  lemma MarkedOrder(cfg: Config, s: Sys, s': Sys)
    requires Inv(cfg, s) && DoMark(s, s')
    ensures Distinct(StopList(s.holder.op))
  {
    hide Units, ConfigOk, DoneOk, IsStartOrder, MarkEvents, MarkStopped, Distinct;
  }

  lemma StepAnnounces(cfg: Config, s: Sys, s': Sys, step: Step, n: string)
    requires Inv(cfg, s) && Next(cfg, s, s', step) && n in s.core.procs && !step.ExitStep?
    ensures Announces(s, s', step, n)
  {
    hide Next, Inv, States, NewEvents, RecordAfter, WaitersAfter, Approached, DoSkip, DoMark, DoTurn, DoLaunch, DoCommit, DoFail, DoExit,
         Distinct, StopList;
    if !Telling(step) {
      Effects(cfg, s, s', step, n);
      StateKept(cfg, s, step, n);
      QuietStep(cfg, s, s', step, n);
    } else {
      TellingStep(cfg, s, s', step);
      match step
      case SkipStep => SkipAnnounces(s, s', n);
      case MarkStep => MarkedOrder(cfg, s, s'); MarkAnnounces(s, s', n);
      case TurnStep(m) => TurnAnnounces(s, s', m, n);
      case LaunchStep(spec) => LaunchAnnounces(s, s', spec, n);
      case CommitStep => CommitAnnounces(s, s', n);
      case FailStep => FailAnnounces(s, s', n);
    }
  }

  /** Every change of state is announced by the step that makes it, and no other; an exit that is
      followed by a restart announces how the run ended and then that it is pending. */
  lemma ChangesAnnounced(cfg: Config, trace: seq<Sys>, steps: seq<Step>, i: nat, n: string)
    requires Trace(cfg, trace, steps) && i < |steps| && n in cfg.deps
    ensures n in trace[i].core.procs
    ensures var s, s', step := trace[i], trace[i + 1], steps[i];
            if step.ExitStep? then
              && HasWaiter(s, step.run) && TheWaiter(s, step.run).phase.Done? && step.run.name in cfg.policy
              && States(NewEvents(s, s', step), n) ==
                   if step.run.name != n then []
                   else [FinalState(s.core.procs[n], TheWaiter(s, step.run).phase.outcome)] + if Reserves(cfg, s, step.run) then [Pending] else []
            else Announces(s, s', step, n)
  {
    hide Next, Inv, Init, States, NewEvents, Reserves, DoExit;
    StepOf(cfg, trace, steps, i);
    KeysHere(cfg, trace[i]);
    if steps[i].ExitStep? {
      TellingStep(cfg, trace[i], trace[i + 1], steps[i]);
      ExitPlaces(cfg, trace[i], trace[i + 1], steps[i].run, n);
    } else {
      StepAnnounces(cfg, trace[i], trace[i + 1], steps[i], n);
    }
  }

  // ---------- All events of a step ----------

  function Told(s: Sys, n: string, state: PState): seq<Event> {
    if n in s.core.procs && s.core.procs[n].state == state then [] else [StateChanged(n, state)]
  }

  /** What a step has to tell, by what it does: in this order, and nothing else. A stop that marks
      its processes tells of their states only. */
  ghost predicate Tells(cfg: Config, s: Sys, s': Sys, step: Step) {
    var events := NewEvents(s, s', step);
    match step
    case SkipStep => s.holder.Busy? && s.holder.pc.SkipAt? && events == Told(s, s.holder.pc.name, Skipped) + [ProcessSkipped(s.holder.pc.name)]
    case LaunchStep(_) => s.holder.Busy? && s.holder.pc.Begin? && events == Told(s, s.holder.pc.name, Starting)
    case CommitStep => s.holder.Busy? && s.holder.pc.CommitAt? && events == Told(s, s.holder.pc.name, Running) + [Started(s.holder.pc.name)]
    case FailStep => s.holder.Busy? && s.holder.pc.Fail? && events == Told(s, s.holder.pc.name, Failed) + [SupervisorError(s.holder.pc.name)]
    case TurnStep(n) => events == Told(s, n, Stopping)
    case StopReturns(ok) =>
      && s.holder.Busy? && s.holder.index < |StopList(s.holder.op)|
      && events == if ok then [] else [SupervisorError(StopList(s.holder.op)[s.holder.index])]
    case ExitStep(r) =>
      && HasWaiter(s, r) && TheWaiter(s, r).phase.Done? && r.name in cfg.policy
      && var outcome, state := TheWaiter(s, r).phase.outcome, FinalState(Own(s, r), TheWaiter(s, r).phase.outcome);
         events == [StateChanged(r.name, state), ProcessExited(r.name, state)]
                   + (if outcome.supervisionError then [SupervisorError(r.name)] else [])
                   + if Reserves(cfg, s, r) then [StateChanged(r.name, Pending), RestartScheduled(r.name)] else []
    case MarkStep => forall e :: e in events ==> e.StateChanged?
    case _ => events == []
  }

  lemma {:induction false} MarksTell(core: Core, order: seq<string>)
    ensures forall e :: e in MarkEvents(core, order) ==> e.StateChanged?
    decreases |order|
  {
    if order != [] { MarksTell(core, order[..|order| - 1]); }
  }

  lemma ExitTells(cfg: Config, s: Sys, s': Sys, r: Run)
    requires Inv(cfg, s) && DoExit(cfg, s, s', r)
    ensures Tells(cfg, s, s', ExitStep(r))
  {
    hide Inv, AllDone, Exit;
    ExitingState(cfg, s, r);
  }

  lemma MoveTells(cfg: Config, s: Sys, s': Sys, step: Step)
    requires MoveNext(cfg, s, s', step)
    ensures Tells(cfg, s, s', step)
  {
    hide AllDone, Startable, HasWaiter, ResumeSet;
  }

  lemma TurnTells(cfg: Config, s: Sys, s': Sys, step: Step)
    requires TurnNext(cfg, s, s', step)
    ensures Tells(cfg, s, s', step)
  {
    hide MarkOne, MarkEvents, Admit, Skip, TurnStopping, LeaveTimer, DepsReady, Startable, MarkStopped;
    if step.MarkStep? { MarksTell(s.core, StopList(s.holder.op)); }
  }

  lemma StartTells(cfg: Config, s: Sys, s': Sys, step: Step)
    requires StartNext(cfg, s, s', step)
    ensures Tells(cfg, s, s', step)
  {
    hide AllDone, Launch, FailStart, Commit;
  }

  lemma CommandTells(cfg: Config, s: Sys, s': Sys, step: Step)
    requires CommandNext(cfg, s, s', step)
    ensures Tells(cfg, s, s', step)
  {
    hide IsStartOrder, IsFullStopOrder, IsStopOrder;
  }

  lemma OthersTell(cfg: Config, s: Sys, s': Sys, step: Step)
    requires !step.ExitStep? && (OutputNext(cfg, s, s', step) || EndNext(cfg, s, s', step) || RunNext(cfg, s, s', step))
    ensures Tells(cfg, s, s', step)
  {
    hide OutputNext, EndNext, RunNext;
    OthersKind(cfg, s, s', step);
    if OutputNext(cfg, s, s', step) { OutputFrame(cfg, s, s', step); }
    else if EndNext(cfg, s, s', step) { EndFrame(cfg, s, s', step); }
    else { RunFrame(cfg, s, s', step); }
  }

  lemma OthersKind(cfg: Config, s: Sys, s': Sys, step: Step)
    requires OutputNext(cfg, s, s', step) || EndNext(cfg, s, s', step) || RunNext(cfg, s, s', step)
    ensures RunOf(step).Some? || step.Watch? || step.Announce? || step.CloseEvents? || step.ContextCancel?
  {
    hide DoWaiterEmit, DoForwardAdd, DoForwardEmit, DoOutput, DoProcessExit, DoTimerFires, DoExit, DoStale, DoClose, DoReserve,
         DoCancelSeen, DoTimerTake, DoTimerLapse, DoWatch, DoAnnounce, DoCloseEvents;
  }

  lemma StepTells(cfg: Config, s: Sys, s': Sys, step: Step)
    requires Inv(cfg, s) && Next(cfg, s, s', step)
    ensures Tells(cfg, s, s', step)
  {
    hide Inv, Tells, DoExit, CommandNext, MoveNext, TurnNext, StartNext, OutputNext, EndNext, RunNext;
    if step.ExitStep? { TellingStep(cfg, s, s', step); ExitTells(cfg, s, s', step.run); }
    else if CommandNext(cfg, s, s', step) { CommandTells(cfg, s, s', step); }
    else if MoveNext(cfg, s, s', step) { MoveTells(cfg, s, s', step); }
    else if TurnNext(cfg, s, s', step) { TurnTells(cfg, s, s', step); }
    else if StartNext(cfg, s, s', step) { StartTells(cfg, s, s', step); }
    else { OthersTell(cfg, s, s', step); }
  }

  /** At every step of every run: skips, failed starts, failed stops, exits and scheduled restarts
      are announced by the step that makes them, and by no other. */
  lemma EventsTell(cfg: Config, trace: seq<Sys>, steps: seq<Step>, i: nat)
    requires Trace(cfg, trace, steps) && i < |steps|
    ensures Tells(cfg, trace[i], trace[i + 1], steps[i])
  {
    hide Next, Inv, Init, Tells;
    StepOf(cfg, trace, steps, i);
    StepTells(cfg, trace[i], trace[i + 1], steps[i]);
  }
}
