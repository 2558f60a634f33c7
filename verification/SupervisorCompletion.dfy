/** No lost completion: outside a stop and the initial start, the supervisor is idle exactly
    when every process is settled, and Run leaves through its completion channel only
    with nothing left to run. */
module SupervisorCompletion {
  import opened DependencyGraph
  import opened StopOrder
  import opened Lifecycle
  import opened Options
  import opened SupervisorMachine
  import opened SupervisorUnit
  import opened SupervisorInvariant
  import opened SupervisorEffects
  import opened SupervisorDependencies
  import opened SupervisorStops

  // ---------- When a process becomes settled ----------

  lemma SettledAt(v: View)
    requires UnitOk(v) && Settled(v.p)
    ensures v.p.runner.None? && !Launching(v.at)
  {
  }

  lemma SettledRecord(cfg: Config, s: Sys, step: Step, n: string)
    requires n in s.core.procs && Settled(s.core.procs[n]) && s.core.procs[n].runner.None?
    requires !Launches(s, step, n) && !Launching(At(s.holder, n))
    requires step.ExitStep? && HasWaiter(s, step.run) && TheWaiter(s, step.run).phase.Done? ==> Own(s, step.run).runner.Some?
    ensures Settled(RecordAfter(cfg, s, step, n))
  {
    hide ExitState, ExitRestarts;
  }

  /** Only a launch unsettles a process. */
  lemma SettledKeeps(cfg: Config, s: Sys, s': Sys, step: Step, n: string)
    requires Inv(cfg, s) && Next(cfg, s, s', step)
    requires n in s.core.procs && Settled(s.core.procs[n]) && !Launches(s, step, n)
    ensures n in s'.core.procs && Settled(s'.core.procs[n])
  {
    hide Next, Frame, UnitOk, RecordAfter, WaitersAfter, Approached, Settled, Launches, At, TimerOf, Ahead;
    Effects(cfg, s, s', step, n);
    SettledAt(ViewOf(s, n));
    if step.ExitStep? && HasWaiter(s, step.run) && TheWaiter(s, step.run).phase.Done? {
      ExitingRun(cfg, s, step.run);
    }
    SettledRecord(cfg, s, step, n);
  }

  /** The exit of a run that is not going to be restarted. */
  predicate EndsRun(cfg: Config, s: Sys, step: Step) {
    && step.ExitStep? && HasWaiter(s, step.run) && TheWaiter(s, step.run).phase.Done? && step.run.name in cfg.policy
    && !ExitRestarts(cfg.policy[step.run.name], Own(s, step.run), s.core.stopping, TheWaiter(s, step.run).phase.outcome)
  }

  lemma SettlesRecord(cfg: Config, s: Sys, step: Step, n: string)
    requires n in s.core.procs && ReservationOk(s.core.procs[n])
    requires !Settled(s.core.procs[n]) && Settled(RecordAfter(cfg, s, step, n))
    ensures step.SkipStep? || step.MarkStep? || step.FailStep? || EndsRun(cfg, s, step)
  {
  }

  lemma LaunchUnsettles(cfg: Config, s: Sys, step: Step, n: string)
    requires n in s.core.procs && Launches(s, step, n)
    ensures !Settled(RecordAfter(cfg, s, step, n))
  {
  }

  // ---------- The completion flag and channel ----------

  /** The step ends with checkDoneLocked. */
  predicate Checks(cfg: Config, s: Sys, step: Step) {
    || step.StopEndStep? || step.FailStep? || EndsRun(cfg, s, step)
    || (step.InitialEndStep? && s.holder.Busy? && s.holder.op.OpInitial? && s.holder.index >= |s.holder.op.names|)
  }

  ghost predicate Flow(cfg: Config, s: Sys, s': Sys, step: Step) {
    && s.core.closedDone <= s'.core.closedDone
    && if step.LaunchStep? then !s'.core.idle && s'.core.done == if s.core.idle then s.core.done + 1 else s.core.done
       else s'.core.done == s.core.done && (s'.core.idle <==> s.core.idle || (Checks(cfg, s, step) && AllDone(s'.core)))
  }

  lemma MoveFlow(cfg: Config, s: Sys, s': Sys, step: Step)
    requires MoveNext(cfg, s, s', step)
    ensures Flow(cfg, s, s', step)
  {
    hide Startable, Settled, HasWaiter, ExitRestarts;
  }

  lemma StartFlow(cfg: Config, s: Sys, s': Sys, step: Step)
    requires StartNext(cfg, s, s', step)
    ensures Flow(cfg, s, s', step)
  {
    hide Settled, HasWaiter, ExitRestarts, Launch, FailStart, Commit;
  }

  lemma EndFlow(cfg: Config, s: Sys, s': Sys, step: Step)
    requires EndNext(cfg, s, s', step)
    ensures Flow(cfg, s, s', step)
  {
    hide Settled, TimerValid, LeaveTimer, CloseFinished, ExitEvents, Exit, ExitState, ExitRestarts;
  }

  lemma CommandFlow(cfg: Config, s: Sys, s': Sys, step: Step)
    requires CommandNext(cfg, s, s', step)
    ensures Flow(cfg, s, s', step)
  {
    hide IsStartOrder, IsFullStopOrder, IsStopOrder, AllDone, HasWaiter, ExitRestarts;
  }

  lemma TurnFlow(cfg: Config, s: Sys, s': Sys, step: Step)
    requires TurnNext(cfg, s, s', step)
    ensures Flow(cfg, s, s', step)
  {
    hide MarkOne, MarkEvents, Admit, Skip, TurnStopping, LeaveTimer, DepsReady, Startable, AllDone, HasWaiter,
         ExitRestarts;
  }

  lemma OutputFlow(cfg: Config, s: Sys, s': Sys, step: Step)
    requires OutputNext(cfg, s, s', step)
    ensures Flow(cfg, s, s', step)
  {
    hide AddLog, AllDone, ExitRestarts;
  }

  lemma RunFlow(cfg: Config, s: Sys, s': Sys, step: Step)
    requires RunNext(cfg, s, s', step)
    ensures Flow(cfg, s, s', step)
  {
    hide AllDone, HasWaiter, ExitRestarts;
  }

  lemma NextFlow(cfg: Config, s: Sys, s': Sys, step: Step)
    requires Next(cfg, s, s', step)
    ensures Flow(cfg, s, s', step)
  {
    hide Flow, CommandNext, MoveNext, TurnNext, StartNext, OutputNext, EndNext, RunNext;
    if CommandNext(cfg, s, s', step) { CommandFlow(cfg, s, s', step); }
    else if MoveNext(cfg, s, s', step) { MoveFlow(cfg, s, s', step); }
    else if TurnNext(cfg, s, s', step) { TurnFlow(cfg, s, s', step); }
    else if StartNext(cfg, s, s', step) { StartFlow(cfg, s, s', step); }
    else if OutputNext(cfg, s, s', step) { OutputFlow(cfg, s, s', step); }
    else if EndNext(cfg, s, s', step) { EndFlow(cfg, s, s', step); }
    else { RunFlow(cfg, s, s', step); }
  }

  // ---------- Idle means done ----------

  /** Idle only when everything is settled; every channel replaced so far is closed. */
  ghost predicate IdleOk(s: Sys) {
    && (s.core.idle ==> AllDone(s.core))
    && (forall d :: 0 <= d < s.core.done ==> d in s.core.closedDone)
  }

  lemma AllDoneKeeps(cfg: Config, s: Sys, s': Sys, step: Step)
    requires Inv(cfg, s) && Next(cfg, s, s', step) && AllDone(s.core) && !step.LaunchStep?
    ensures AllDone(s'.core)
  {
    hide Inv, Next, Settled;
    KeysKept(cfg, s, s', step);
    forall n | n in s'.core.procs ensures Settled(s'.core.procs[n]) {
      SettledKeeps(cfg, s, s', step, n);
    }
  }

  lemma IdleKeeps(cfg: Config, s: Sys, s': Sys, step: Step)
    requires Inv(cfg, s) && IdleOk(s) && Next(cfg, s, s', step)
    ensures IdleOk(s')
  {
    hide Inv, Next, AllDone;
    NextFlow(cfg, s, s', step);
    DoneOfFrame(cfg, s);
    if s.core.idle && !step.LaunchStep? { AllDoneKeeps(cfg, s, s', step); }
  }

  lemma DoneOfFrame(cfg: Config, s: Sys)
    requires Inv(cfg, s)
    ensures DoneOk(s.core)
  {
  }

  /** A launch leaves something to wait for. */
  lemma LaunchBusy(cfg: Config, s: Sys, s': Sys, step: Step)
    requires Inv(cfg, s) && Next(cfg, s, s', step) && step.LaunchStep?
    ensures !AllDone(s'.core)
  {
    hide Inv, Next, RecordAfter, WaitersAfter, Approached;
    LaunchPlace(cfg, s, s', step);
    var n := s.holder.pc.name;
    Effects(cfg, s, s', step, n);
    LaunchUnsettles(cfg, s, step, n);
  }

  // ---------- Progress of Run ----------

  ghost predicate PhaseOk(s: Sys) {
    && (s.phase.StartingUp? <==> s.holder.Busy? && s.holder.op.OpInitial?)
    && (s.phase.StoppingAll? <==> s.holder.Busy? && s.holder.op.OpStopAll? && s.holder.op.byRun)
    && (s.phase.NotCalled? && s.holder.Busy? && (s.holder.pc.Mark? || InStop(s.holder.pc) || s.holder.pc.ResumeRead?) ==> s.earlyStop)
  }

  lemma CommandPhase(cfg: Config, s: Sys, s': Sys, step: Step)
    requires PhaseOk(s) && CommandNext(cfg, s, s', step)
    ensures PhaseOk(s')
  {
    hide IsStartOrder, IsFullStopOrder, IsStopOrder;
  }

  lemma MovePhase(cfg: Config, s: Sys, s': Sys, step: Step)
    requires PhaseOk(s) && MoveNext(cfg, s, s', step)
    ensures PhaseOk(s')
  {
    hide Startable, AllDone, HasWaiter;
  }

  lemma TurnPhase(cfg: Config, s: Sys, s': Sys, step: Step)
    requires PhaseOk(s) && TurnNext(cfg, s, s', step)
    ensures PhaseOk(s')
  {
    hide MarkOne, MarkEvents, Admit, Skip, TurnStopping, LeaveTimer, DepsReady, Startable;
  }

  lemma RunPhaseKeeps(cfg: Config, s: Sys, s': Sys, step: Step)
    requires PhaseOk(s) && RunNext(cfg, s, s', step)
    ensures PhaseOk(s')
  {
  }

  lemma PhaseKeeps(cfg: Config, s: Sys, s': Sys, step: Step)
    requires PhaseOk(s) && Next(cfg, s, s', step)
    ensures PhaseOk(s')
  {
    hide PhaseOk, CommandNext, MoveNext, TurnNext, StartNext, OutputNext, EndNext, RunNext;
    if CommandNext(cfg, s, s', step) { CommandPhase(cfg, s, s', step); }
    else if MoveNext(cfg, s, s', step) { MovePhase(cfg, s, s', step); }
    else if TurnNext(cfg, s, s', step) { TurnPhase(cfg, s, s', step); }
    else if StartNext(cfg, s, s', step) { StartFrame(cfg, s, s', step); SamePhase(s, s'); }
    else if OutputNext(cfg, s, s', step) { OutputFrame(cfg, s, s', step); SamePhase(s, s'); }
    else if EndNext(cfg, s, s', step) { EndFrame(cfg, s, s', step); SamePhase(s, s'); }
    else { RunPhaseKeeps(cfg, s, s', step); }
  }

  lemma SamePhase(s: Sys, s': Sys)
    requires PhaseOk(s) && s'.phase == s.phase && s'.earlyStop == s.earlyStop
    requires || s'.holder == s.holder
             || (s.holder.Free? && s'.holder.Busy? && s'.holder.op.OpTimer? && s'.holder.pc.Begin?)
             || (s.holder.Busy? && s'.holder.Busy? && s'.holder.op == s.holder.op
                 && !s'.holder.pc.Mark? && !InStop(s'.holder.pc) && !s'.holder.pc.ResumeRead?)
    ensures PhaseOk(s')
  {
  }

  /** What only ever goes one way. */
  predicate Advanced(s: Sys, s': Sys) {
    && (Began(s) ==> Began(s')) && (s.ctxDone ==> s'.ctxDone) && (s.earlyStop ==> s'.earlyStop)
    && (s.core.stopping ==> s'.core.stopping)
    && (Began(s) && s'.earlyStop ==> s.earlyStop)
  }

  lemma CommandAdvances(cfg: Config, s: Sys, s': Sys, step: Step)
    requires CommandNext(cfg, s, s', step)
    ensures Advanced(s, s')
    ensures Began(s') && !Began(s) ==> s'.holder.Busy? && s'.holder.op.OpInitial? && s'.holder.pc.InitialNext?
  {
    hide IsStartOrder, IsFullStopOrder, IsStopOrder;
  }

  lemma TurnAdvances(cfg: Config, s: Sys, s': Sys, step: Step)
    requires PhaseOk(s) && TurnNext(cfg, s, s', step)
    ensures Advanced(s, s')
    ensures Began(s') ==> Began(s)
  {
    hide MarkOne, MarkEvents, Admit, Skip, TurnStopping, LeaveTimer, DepsReady, Startable;
  }

  lemma NextAdvances(cfg: Config, s: Sys, s': Sys, step: Step)
    requires PhaseOk(s) && Next(cfg, s, s', step)
    ensures Advanced(s, s')
    ensures Began(s') && !Began(s) ==> s'.holder.Busy? && s'.holder.op.OpInitial? && s'.holder.pc.InitialNext?
  {
    hide PhaseOk, CommandNext, MoveNext, TurnNext, StartNext, OutputNext, EndNext, RunNext;
    if CommandNext(cfg, s, s', step) { CommandAdvances(cfg, s, s', step); }
    else if MoveNext(cfg, s, s', step) { MoveFrame(cfg, s, s', step); }
    else if TurnNext(cfg, s, s', step) { TurnAdvances(cfg, s, s', step); }
    else if StartNext(cfg, s, s', step) { StartFrame(cfg, s, s', step); }
    else if OutputNext(cfg, s, s', step) { OutputFrame(cfg, s, s', step); }
    else if EndNext(cfg, s, s', step) { EndFrame(cfg, s, s', step); }
    else { RunAdvances(cfg, s, s', step); }
  }

  lemma RunAdvances(cfg: Config, s: Sys, s': Sys, step: Step)
    requires RunNext(cfg, s, s', step)
    ensures Advanced(s, s') && (Began(s') ==> Began(s))
  {
  }

  // ---------- Processes the initial start has not come to ----------

  /** Without a stop before Run, what is still ahead of the initial start is pending. */
  ghost predicate PendingOk(s: Sys) {
    forall n :: n in s.core.procs && Ahead(s, n) && !s.earlyStop ==> s.core.procs[n].state.Pending?
  }

  lemma StartsEngaged(cfg: Config, s: Sys, s': Sys, step: Step)
    requires Frame(cfg, s) && StartNext(cfg, s, s', step)
    ensures s.holder.Busy? && PcName(s.holder.pc).Some? && Engaged(cfg, s, s', PcName(s.holder.pc).value)
  {
    hide Frame, Engaged, DoWait, DoRefuse, DoLaunch, DoExec, DoCommit, DoSpawn, DoFail;
    StartPlace(cfg, s, s', step);
    match step
    case WaitStep => WaitStepShape(cfg, s, s');
    case RefuseStep => RefuseShape(cfg, s, s');
    case LaunchStep(spec) => LaunchShape(cfg, s, s', spec);
    case ExecStep(ok) => ExecStepShape(cfg, s, s', ok);
    case CommitStep => CommitStepShape(cfg, s, s');
    case SpawnStep => SpawnStepShape(cfg, s, s');
    case FailStep => FailStepShape(cfg, s, s');
    case _ =>
  }

  lemma StartPlace(cfg: Config, s: Sys, s': Sys, step: Step)
    requires StartNext(cfg, s, s', step)
    ensures s.holder.Busy? && (s.holder.pc.ManualWait? || Launchable(s.holder.pc))
    ensures PcName(s.holder.pc) == Some(s.holder.pc.name)
  {
    hide AllDone, FailStart, Launch, Commit;
  }

  lemma TurnAhead(cfg: Config, s: Sys, s': Sys, step: Step, n: string)
    requires Frame(cfg, s) && TurnNext(cfg, s, s', step) && Ahead(s', n)
    ensures Ahead(s, n)
  {
    hide ConfigOk, Covers, DoneOk, IsStartOrder, MarkOne, MarkEvents, Admit, Skip, TurnStopping, LeaveTimer,
         DepsReady, Startable;
  }

  lemma EndAhead(cfg: Config, s: Sys, s': Sys, step: Step, n: string)
    requires EndNext(cfg, s, s', step) && Ahead(s', n)
    ensures Ahead(s, n)
  {
    hide EndNext;
    EndFrame(cfg, s, s', step);
  }

  lemma OutputAhead(cfg: Config, s: Sys, s': Sys, step: Step, n: string)
    requires (OutputNext(cfg, s, s', step) || RunNext(cfg, s, s', step)) && Ahead(s', n)
    ensures Ahead(s, n)
  {
    hide OutputNext;
    if OutputNext(cfg, s, s', step) { OutputFrame(cfg, s, s', step); }
  }

  /** A process never gets ahead of the initial start again. */
  lemma AheadBack(cfg: Config, s: Sys, s': Sys, step: Step, n: string)
    requires Inv(cfg, s) && Next(cfg, s, s', step) && n in s.core.procs && Ahead(s', n)
    ensures Ahead(s, n)
  {
    hide Frame, Units, Ahead, Engaged, CommandNext, MoveNext, TurnNext, StartNext, OutputNext, EndNext, RunNext;
    if CommandNext(cfg, s, s', step) { CommandsKeep(cfg, s, s', step); }
    else if MoveNext(cfg, s, s', step) { MovesKeep(cfg, s, s', step); }
    else if TurnNext(cfg, s, s', step) { TurnAhead(cfg, s, s', step, n); }
    else if StartNext(cfg, s, s', step) {
      StartsEngaged(cfg, s, s', step);
      EngagedAhead(cfg, s, s', PcName(s.holder.pc).value);
    }
    else if EndNext(cfg, s, s', step) { EndAhead(cfg, s, s', step, n); }
    else { OutputAhead(cfg, s, s', step, n); }
  }

  lemma AheadRecord(cfg: Config, s: Sys, step: Step, n: string)
    requires n in s.core.procs && n in s.waiters && UnitOk(ViewOf(s, n)) && Ahead(s, n)
    requires At(s.holder, n).Return? || At(s.holder, n).ManualContext?
    requires s.core.procs[n].state.Pending? && !step.MarkStep?
    ensures RecordAfter(cfg, s, step, n).state.Pending?
  {
    hide RunnerOk, RestOk, HolderOk, WaiterOk, NumbersOk;
  }

  lemma AheadPlace(cfg: Config, s: Sys, n: string)
    requires Frame(cfg, s) && Ahead(s, n)
    ensures At(s.holder, n).Return? || At(s.holder, n).ManualContext?
  {
    hide Frame, Ahead;
    if s.holder.Busy? && PcName(s.holder.pc) == Some(n) && !s.holder.pc.ManualContext? { NotAhead(cfg, s, n); }
  }

  lemma AheadNotMarked(cfg: Config, s: Sys, s': Sys, n: string)
    requires DoMark(s, s') && Ahead(s, n) && PhaseOk(s)
    ensures s.earlyStop || s.holder.op.OpInitial?
  {
  }

  lemma PendingStays(cfg: Config, s: Sys, s': Sys, step: Step, n: string)
    requires Inv(cfg, s) && PhaseOk(s) && PendingOk(s) && Next(cfg, s, s', step)
    requires n in s.core.procs && n in s'.core.procs && Ahead(s', n) && !s'.earlyStop
    ensures s'.core.procs[n].state.Pending?
  {
    hide Frame, UnitOk, Next, RecordAfter, WaitersAfter, Approached, Ahead, At, PhaseOk, DoMark;
    AheadBack(cfg, s, s', step, n);
    AheadPlace(cfg, s, n);
    NextAdvances(cfg, s, s', step);
    Effects(cfg, s, s', step, n);
    if step.MarkStep? {
      MarkOnly(cfg, s, s', step);
      AheadNotMarked(cfg, s, s', n);
      NoMarkInInitial(cfg, s, s');
    } else {
      AheadRecord(cfg, s, step, n);
    }
  }

  lemma NoMarkInInitial(cfg: Config, s: Sys, s': Sys)
    requires Frame(cfg, s) && DoMark(s, s')
    ensures !s.holder.op.OpInitial?
  {
    hide ConfigOk, Covers, DoneOk, IsStartOrder, MarkOne;
  }

  lemma PendingKeeps(cfg: Config, s: Sys, s': Sys, step: Step)
    requires Inv(cfg, s) && PhaseOk(s) && PendingOk(s) && Next(cfg, s, s', step)
    ensures PendingOk(s')
  {
    hide Inv, Next, Ahead, PhaseOk;
    KeysKept(cfg, s, s', step);
    forall n | n in s'.core.procs && Ahead(s', n) && !s'.earlyStop ensures s'.core.procs[n].state.Pending? {
      PendingStays(cfg, s, s', step, n);
    }
  }

  // ---------- Completion is noticed ----------

  /** A stop or the initial start is under way; its last section looks again. */
  predicate Exempt(h: Holder) {
    h.Busy? && (InStop(h.pc) || (h.op.OpInitial? && !h.pc.Return?))
  }

  /** The initial start returns early, because of cancellation, and does not look again
      although everything has become settled unnoticed. */
  ghost predicate GivesUp(s: Sys, step: Step) {
    && step.InitialEndStep? && s.holder.Busy? && s.holder.op.OpInitial?
    && s.holder.index < |s.holder.op.names| && AllDone(s.core) && !s.core.idle
  }

  /** Everything is settled and the supervisor does not know. */
  ghost predicate Unnoticed(s: Sys) {
    Began(s) && AllDone(s.core) && !s.core.idle
  }

  predicate Closes(step: Step) {
    step.StopEndStep? || step.InitialEndStep?
  }

  lemma MoveExempt(cfg: Config, s: Sys, s': Sys, step: Step)
    requires Frame(cfg, s) && MoveNext(cfg, s, s', step) && Exempt(s.holder) && !Closes(step)
    ensures Exempt(s'.holder)
  {
    hide ConfigOk, Covers, DoneOk, IsStartOrder, AllDone, Startable, HasWaiter;
  }

  lemma TurnExempt(cfg: Config, s: Sys, s': Sys, step: Step)
    requires Frame(cfg, s) && TurnNext(cfg, s, s', step) && Exempt(s.holder)
    ensures Exempt(s'.holder)
  {
    hide ConfigOk, Covers, DoneOk, IsStartOrder, MarkOne, MarkEvents, Admit, Skip, TurnStopping, LeaveTimer,
         DepsReady, Startable;
  }

  lemma StartExempt(cfg: Config, s: Sys, s': Sys, step: Step)
    requires Frame(cfg, s) && StartNext(cfg, s, s', step) && Exempt(s.holder)
    ensures Exempt(s'.holder)
  {
    hide Frame, StartNext, Covers;
    StartFrame(cfg, s, s', step);
    StartsEngaged(cfg, s, s', step);
  }

  lemma ExemptKeeps(cfg: Config, s: Sys, s': Sys, step: Step)
    requires Frame(cfg, s) && Next(cfg, s, s', step) && Exempt(s.holder) && !Closes(step)
    ensures Exempt(s'.holder)
  {
    hide Frame, Exempt, Closes, CommandNext, MoveNext, TurnNext, StartNext, OutputNext, EndNext, RunNext;
    BusyHolder(s);
    if CommandNext(cfg, s, s', step) { CommandsAtRest(cfg, s, s', step); }
    else if MoveNext(cfg, s, s', step) { MoveExempt(cfg, s, s', step); }
    else if TurnNext(cfg, s, s', step) { TurnExempt(cfg, s, s', step); }
    else if StartNext(cfg, s, s', step) { StartExempt(cfg, s, s', step); }
    else if OutputNext(cfg, s, s', step) { OutputFrame(cfg, s, s', step); }
    else if EndNext(cfg, s, s', step) { EndFrame(cfg, s, s', step); }
    else { RunFrame(cfg, s, s', step); }
  }

  lemma BusyHolder(s: Sys)
    requires Exempt(s.holder)
    ensures s.holder.Busy?
  {
  }

  /** Everything may become settled unnoticed only in the middle of a stop or of the
      initial start. */
  lemma SettledUnnoticed(cfg: Config, s: Sys, s': Sys, step: Step)
    requires Inv(cfg, s) && Next(cfg, s, s', step) && !AllDone(s.core) && AllDone(s'.core)
    ensures Exempt(s'.holder) || Checks(cfg, s, step)
  {
    hide Next, Frame, Units, Settled, Exempt, Checks, RecordAfter, WaitersAfter, Approached, ReservationOk;
    KeysKept(cfg, s, s', step);
    var n :| n in s.core.procs && !Settled(s.core.procs[n]);
    Effects(cfg, s, s', step, n);
    ReservationOf(cfg, s, n);
    SettlesRecord(cfg, s, step, n);
    SettlesWhere(cfg, s, s', step);
  }

  lemma ReservationOf(cfg: Config, s: Sys, n: string)
    requires Inv(cfg, s) && n in s.core.procs
    ensures ReservationOk(s.core.procs[n])
  {
    hide RunnerOk, RestOk, HolderOk, WaiterOk, NumbersOk, ReservationOk;
    FrameKeys(cfg, s);
    assert UnitOk(ViewOf(s, n));
  }

  lemma SettlesWhere(cfg: Config, s: Sys, s': Sys, step: Step)
    requires Frame(cfg, s) && Next(cfg, s, s', step)
    requires step.SkipStep? || step.MarkStep? || step.FailStep? || EndsRun(cfg, s, step)
    ensures Exempt(s'.holder) || Checks(cfg, s, step)
  {
    hide ConfigOk, Covers, DoneOk, IsStartOrder, MarkOne, MarkEvents, CommandNext, MoveNext, StartNext, OutputNext,
         EndNext, RunNext, EndsRun;
    if step.SkipStep? || step.MarkStep? { NotThere(cfg, s, s', step); }
  }

  lemma NotThere(cfg: Config, s: Sys, s': Sys, step: Step)
    requires Next(cfg, s, s', step) && (step.SkipStep? || step.MarkStep?)
    ensures TurnNext(cfg, s, s', step)
  {
    hide DoSkip, DoMark, TurnNext;
  }

  lemma ClosesWhere(cfg: Config, s: Sys, s': Sys, step: Step)
    requires Next(cfg, s, s', step) && Closes(step)
    ensures if step.InitialEndStep? then DoInitialEnd(s, s') else DoStopEnd(s, s')
  {
    hide DoInitialEnd, DoStopEnd;
  }

  /** The end of a stop looks again, and so does the initial start unless it gives up. */
  lemma ClosesNotice(cfg: Config, s: Sys, s': Sys, step: Step)
    requires Next(cfg, s, s', step) && Closes(step) && AllDone(s.core) && !s'.core.idle
    ensures GivesUp(s, step)
  {
    hide AllDone, DoneOk, Next;
    ClosesWhere(cfg, s, s', step);
  }

  /** How a step can lead to a state in which everything is settled unnoticed. */
  lemma UnnoticedStep(cfg: Config, s: Sys, s': Sys, step: Step)
    requires Inv(cfg, s) && PhaseOk(s) && Next(cfg, s, s', step) && Unnoticed(s')
    ensures Exempt(s'.holder) || GivesUp(s, step) || (Unnoticed(s) && !Exempt(s.holder) && !step.StopEndStep?)
  {
    hide Frame, Units, Next, AllDone, Exempt, Checks, PhaseOk, Began, GivesUp;
    NextFlow(cfg, s, s', step);
    NextAdvances(cfg, s, s', step);
    if step.LaunchStep? {
      LaunchBusy(cfg, s, s', step);
    } else if !AllDone(s.core) {
      SettledUnnoticed(cfg, s, s', step);
    } else if !Began(s) {
      InitialExempt(s'.holder);
    } else if Closes(step) {
      ClosesNotice(cfg, s, s', step);
    } else if Exempt(s.holder) {
      ExemptKeeps(cfg, s, s', step);
    }
  }

  lemma InitialExempt(h: Holder)
    requires h.Busy? && h.op.OpInitial? && h.pc.InitialNext?
    ensures Exempt(h)
  {
  }

  // ---------- Leaving through the completion channel ----------

  predicate ViaDone(phase: RunPhase) {
    (phase.Draining? || phase.Announced? || phase.Finished?) && phase.viaDone
  }

  ghost predicate LeaveOk(s: Sys) {
    && (ViaDone(s.phase) ==> s.core.stopping && AllDone(s.core))
    && (s.phase.Watching? ==> s.phase.done <= s.core.done)
  }

  ghost predicate PhaseStep(s: Sys, s': Sys) {
    && (ViaDone(s'.phase) && !ViaDone(s.phase) ==> s.core.idle && s'.core == s.core.(stopping := true))
    && (s'.phase.Watching? ==> s'.phase == s.phase || s'.phase.done == s.core.done == s'.core.done)
  }

  lemma CommandPhaseStep(cfg: Config, s: Sys, s': Sys, step: Step)
    requires CommandNext(cfg, s, s', step)
    ensures PhaseStep(s, s')
  {
    hide IsStartOrder, IsFullStopOrder, IsStopOrder;
  }

  lemma TurnPhaseStep(cfg: Config, s: Sys, s': Sys, step: Step)
    requires TurnNext(cfg, s, s', step)
    ensures PhaseStep(s, s')
  {
    hide MarkOne, MarkEvents, Admit, Skip, TurnStopping, LeaveTimer, DepsReady, Startable;
  }

  lemma RunPhaseStep(cfg: Config, s: Sys, s': Sys, step: Step)
    requires RunNext(cfg, s, s', step)
    ensures PhaseStep(s, s')
  {
  }

  lemma PhaseFrom(cfg: Config, s: Sys, s': Sys, step: Step)
    requires Next(cfg, s, s', step)
    ensures PhaseStep(s, s')
  {
    hide CommandNext, MoveNext, TurnNext, StartNext, OutputNext, EndNext, RunNext;
    if CommandNext(cfg, s, s', step) { CommandPhaseStep(cfg, s, s', step); }
    else if MoveNext(cfg, s, s', step) { MoveFrame(cfg, s, s', step); }
    else if TurnNext(cfg, s, s', step) { TurnPhaseStep(cfg, s, s', step); }
    else if StartNext(cfg, s, s', step) { StartFrame(cfg, s, s', step); }
    else if OutputNext(cfg, s, s', step) { OutputFrame(cfg, s, s', step); }
    else if EndNext(cfg, s, s', step) { EndFrame(cfg, s, s', step); }
    else { RunPhaseStep(cfg, s, s', step); }
  }

  lemma LeaveKeeps(cfg: Config, s: Sys, s': Sys, step: Step)
    requires Inv(cfg, s) && PhaseOk(s) && IdleOk(s) && LeaveOk(s) && Next(cfg, s, s', step)
    ensures LeaveOk(s')
  {
    hide Frame, Units, Next, AllDone, PhaseOk, ViaDone;
    NextFlow(cfg, s, s', step);
    NextAdvances(cfg, s, s', step);
    PhaseFrom(cfg, s, s', step);
    if ViaDone(s'.phase) {
      if ViaDone(s.phase) {
        if step.LaunchStep? { LaunchPlace(cfg, s, s', step); } else { AllDoneKeeps(cfg, s, s', step); }
      } else {
        SameAllDone(s.core, s'.core);
      }
    }
  }

  lemma SameAllDone(c: Core, c': Core)
    requires AllDone(c) && c'.procs == c.procs
    ensures AllDone(c')
  {
  }

  // ---------- Over a whole run ----------

  ghost predicate CompletionInv(cfg: Config, s: Sys) {
    Inv(cfg, s) && PhaseOk(s) && PendingOk(s) && IdleOk(s) && LeaveOk(s)
  }

  lemma CompletionInit(cfg: Config, s: Sys)
    requires Init(cfg, s)
    ensures CompletionInv(cfg, s)
  {
    hide Inv;
    InitKeeps(cfg, s);
  }

  lemma CompletionKeeps(cfg: Config, s: Sys, s': Sys, step: Step)
    requires CompletionInv(cfg, s) && Next(cfg, s, s', step)
    ensures CompletionInv(cfg, s')
  {
    hide Inv, PhaseOk, PendingOk, IdleOk, LeaveOk, Next;
    NextKeeps(cfg, s, s', step);
    PhaseKeeps(cfg, s, s', step);
    PendingKeeps(cfg, s, s', step);
    IdleKeeps(cfg, s, s', step);
    LeaveKeeps(cfg, s, s', step);
  }

  lemma {:induction false} RunCompletes(cfg: Config, trace: seq<Sys>, steps: seq<Step>, i: nat)
    requires Trace(cfg, trace, steps) && i < |trace|
    ensures CompletionInv(cfg, trace[i])
  {
    hide Init, Next, CompletionInv;
    if i == 0 {
      CompletionInit(cfg, trace[0]);
    } else {
      RunCompletes(cfg, trace, steps, i - 1);
      assert Next(cfg, trace[i - 1], trace[i - 1 + 1], steps[i - 1]);
      CompletionKeeps(cfg, trace[i - 1], trace[i], steps[i - 1]);
    }
  }

  // ---------- When completion is missed ----------

  /** The initial start gave up at step k, and no stop has ended since. */
  ghost predicate MissedSince(trace: seq<Sys>, steps: seq<Step>, k: nat, i: nat)
    requires i <= |steps| < |trace|
  {
    k < i && GivesUp(trace[k], steps[k]) && forall m :: k < m < i ==> !steps[m].StopEndStep?
  }

  ghost predicate Missed(trace: seq<Sys>, steps: seq<Step>, i: nat)
    requires i <= |steps| < |trace|
  {
    exists k: nat :: MissedSince(trace, steps, k, i)
  }

  /** Completion goes unnoticed outside a stop and the initial start only because the
      initial start gave up. */
  lemma {:induction false} UnnoticedIsMissed(cfg: Config, trace: seq<Sys>, steps: seq<Step>, i: nat)
    requires Trace(cfg, trace, steps) && i <= |steps| < |trace| && Unnoticed(trace[i])
    ensures Exempt(trace[i].holder) || Missed(trace, steps, i)
  {
    hide Next, Inv, PhaseOk, PendingOk, IdleOk, LeaveOk, Unnoticed, GivesUp, Exempt;
    if i == 0 {
      NotBegun(cfg, trace[0]);
    } else {
      var s, s', step := trace[i - 1], trace[i], steps[i - 1];
      RunCompletes(cfg, trace, steps, i - 1);
      assert Next(cfg, trace[i - 1], trace[i - 1 + 1], steps[i - 1]);
      UnnoticedStep(cfg, s, s', step);
      if GivesUp(s, step) {
        assert MissedSince(trace, steps, i - 1, i);
      } else if Unnoticed(s) && !Exempt(s.holder) && !step.StopEndStep? {
        UnnoticedIsMissed(cfg, trace, steps, i - 1);
        var k: nat :| MissedSince(trace, steps, k, i - 1);
        assert MissedSince(trace, steps, k, i);
      }
    }
  }

  lemma NotBegun(cfg: Config, s: Sys)
    requires Init(cfg, s)
    ensures !Unnoticed(s)
  {
  }

  /** What the lock holder can still be doing after the initial start was cancelled: nothing
      that starts a process. */
  predicate Parked(h: Holder) {
    h.Busy? ==>
      match h.op
      case OpInitial(_) => h.pc.Return?
      case OpStart(_) => h.pc.ManualContext? || h.pc.Return?
      case OpStop(_) => true
      case OpStopAll(_, _) => true
      case OpRestart(_, _, _) => h.pc.RestartContext? || h.pc.Return?
      case OpTimer(_) => false
  }

  ghost predicate Abandoned(s: Sys) {
    Unnoticed(s) && s.ctxDone && Parked(s.holder)
  }

  lemma CommandParks(cfg: Config, s: Sys, s': Sys, step: Step)
    requires CommandNext(cfg, s, s', step) && Began(s)
    ensures Parked(s'.holder)
  {
    hide IsStartOrder, IsFullStopOrder, IsStopOrder;
  }

  lemma MoveParks(cfg: Config, s: Sys, s': Sys, step: Step)
    requires Frame(cfg, s) && MoveNext(cfg, s, s', step) && s.ctxDone && Parked(s.holder)
    ensures Parked(s'.holder) && !step.InitialEndStep?
  {
    hide ConfigOk, Covers, DoneOk, IsStartOrder, AllDone, Startable, HasWaiter, ResumeSet;
  }

  lemma TurnParks(cfg: Config, s: Sys, s': Sys, step: Step)
    requires Frame(cfg, s) && TurnNext(cfg, s, s', step) && Parked(s.holder)
    ensures Parked(s'.holder)
  {
    hide ConfigOk, Covers, DoneOk, IsStartOrder, MarkOne, MarkEvents, Admit, Skip, TurnStopping, LeaveTimer,
         DepsReady, Startable;
  }

  lemma StartNotParked(cfg: Config, s: Sys, s': Sys, step: Step)
    requires Frame(cfg, s) && StartNext(cfg, s, s', step)
    ensures !Parked(s.holder)
  {
    hide ConfigOk, Covers, DoneOk, IsStartOrder, StartNext;
    StartFrame(cfg, s, s', step);
  }

  lemma EndParks(cfg: Config, s: Sys, s': Sys, step: Step)
    requires EndNext(cfg, s, s', step) && s.ctxDone
    ensures s'.holder == s.holder
  {
    hide AllDone, Exit, ExitRestarts, ExitEvents, ExitState, CloseFinished, LeaveTimer;
  }

  lemma NextParks(cfg: Config, s: Sys, s': Sys, step: Step)
    requires Frame(cfg, s) && Next(cfg, s, s', step) && Began(s) && s.ctxDone && Parked(s.holder)
    ensures Parked(s'.holder) && !step.LaunchStep? && !step.FailStep? && !step.InitialEndStep?
  {
    hide Frame, Parked, Began, CommandNext, MoveNext, TurnNext, StartNext, OutputNext, EndNext, RunNext;
    if StartNext(cfg, s, s', step) { StartNotParked(cfg, s, s', step); }
    StartStepOnly(cfg, s, s', step);
    if MoveNext(cfg, s, s', step) { MoveParks(cfg, s, s', step); }
    if CommandNext(cfg, s, s', step) { CommandParks(cfg, s, s', step); }
    else if TurnNext(cfg, s, s', step) { TurnParks(cfg, s, s', step); }
    else if OutputNext(cfg, s, s', step) { OutputFrame(cfg, s, s', step); }
    else if EndNext(cfg, s, s', step) { EndParks(cfg, s, s', step); }
    else if RunNext(cfg, s, s', step) { RunFrame(cfg, s, s', step); }
  }

  lemma StartStepOnly(cfg: Config, s: Sys, s': Sys, step: Step)
    requires Next(cfg, s, s', step)
    ensures step.LaunchStep? || step.FailStep? ==> StartNext(cfg, s, s', step)
    ensures step.InitialEndStep? ==> MoveNext(cfg, s, s', step)
  {
    hide DoLaunch, DoFail, DoInitialEnd;
  }

  lemma NoRunEnds(cfg: Config, s: Sys, step: Step)
    requires Inv(cfg, s) && AllDone(s.core)
    ensures !EndsRun(cfg, s, step)
  {
    hide Inv, ExitRestarts;
    if EndsRun(cfg, s, step) {
      ExitingRun(cfg, s, step.run);
      InvGivesFrame(cfg, s);
      FrameKeys(cfg, s);
      AllIdle(cfg, s, step.run.name);
    }
  }

  /** Nothing but the end of a stop makes up for it. */
  lemma AbandonedKeeps(cfg: Config, s: Sys, s': Sys, step: Step)
    requires Inv(cfg, s) && PhaseOk(s) && Abandoned(s) && Next(cfg, s, s', step) && !step.StopEndStep?
    ensures Abandoned(s')
  {
    hide Frame, Units, Next, AllDone, PhaseOk, Began, Parked, EndsRun;
    NextFlow(cfg, s, s', step);
    NextAdvances(cfg, s, s', step);
    NextParks(cfg, s, s', step);
    NoRunEnds(cfg, s, step);
    AllDoneKeeps(cfg, s, s', step);
  }

  lemma GivingUpAbandons(cfg: Config, s: Sys, s': Sys, step: Step)
    requires Inv(cfg, s) && PhaseOk(s) && Next(cfg, s, s', step) && GivesUp(s, step)
    ensures Abandoned(s')
  {
    hide Inv, AllDone, DoneOk, Next;
    ClosesWhere(cfg, s, s', step);
    OldAllDone(s, s');
  }

  lemma OldAllDone(s: Sys, s': Sys)
    requires DoInitialEnd(s, s') && AllDone(s.core)
    ensures AllDone(s'.core)
  {
  }

  lemma {:induction false} MissedIsAbandoned(cfg: Config, trace: seq<Sys>, steps: seq<Step>, k: nat, i: nat)
    requires Trace(cfg, trace, steps) && i <= |steps| < |trace| && MissedSince(trace, steps, k, i)
    ensures Abandoned(trace[i])
    decreases i
  {
    hide Next, Inv, PhaseOk, PendingOk, IdleOk, LeaveOk, GivesUp, Abandoned;
    RunCompletes(cfg, trace, steps, i - 1);
    assert Next(cfg, trace[i - 1], trace[i - 1 + 1], steps[i - 1]);
    if i == k + 1 {
      GivingUpAbandons(cfg, trace[k], trace[i], steps[k]);
    } else {
      MissedIsAbandoned(cfg, trace, steps, k, i - 1);
      AbandonedKeeps(cfg, trace[i - 1], trace[i], steps[i - 1]);
    }
  }

  /** A start can give up like that only in a run whose context has been cancelled, and only
      if a stop had been issued before Run was called. */
  lemma GivesUpAfterStop(cfg: Config, s: Sys, s': Sys, step: Step)
    requires Frame(cfg, s) && PendingOk(s) && Next(cfg, s, s', step) && GivesUp(s, step)
    ensures s.earlyStop && s.ctxDone
  {
    hide ConfigOk, DoneOk, Covers, Next;
    ClosesWhere(cfg, s, s', step);
    var n := s.holder.op.names[s.holder.index];
    StartOrderKnown(cfg, s.holder.op.names, s.holder.index);
    assert s.holder.op.names[s.holder.index..][0] == n;
    assert Ahead(s, n);
    assert Settled(s.core.procs[n]);
  }

  /** No lost completion, exactly: once Run has begun, whenever the operations lock is free,
      idle, a closed completion channel and all processes being settled are the same
      thing if and only if it is not the case that the initial start was cut short by
      cancellation with everything settled unnoticed and no stop has ended since. */
  lemma NoLostCompletion(cfg: Config, trace: seq<Sys>, steps: seq<Step>, i: nat)
    requires Trace(cfg, trace, steps) && i < |trace| && trace[i].holder.Free? && Began(trace[i])
    ensures i <= |steps| < |trace|
    ensures (trace[i].core.idle <==> AllDone(trace[i].core)) <==> !Missed(trace, steps, i)
    ensures (trace[i].core.done in trace[i].core.closedDone <==> AllDone(trace[i].core)) <==> !Missed(trace, steps, i)
    ensures trace[i].core.idle ==> AllDone(trace[i].core)
    ensures !trace[i].core.panicked
  {
    hide Next, Init, Frame, Units, PhaseOk, PendingOk, LeaveOk, AllDone, MissedSince;
    RunCompletes(cfg, trace, steps, i);
    DoneOfFrame(cfg, trace[i]);
    NoDoublePanic(cfg, trace[i]);
    if Missed(trace, steps, i) {
      var k: nat :| MissedSince(trace, steps, k, i);
      MissedIsAbandoned(cfg, trace, steps, k, i);
    } else if Unnoticed(trace[i]) {
      UnnoticedIsMissed(cfg, trace, steps, i);
    }
  }

  /** Without a stop before Run, or without cancellation, nothing is ever missed. */
  lemma MissedOnlyAfterStop(cfg: Config, trace: seq<Sys>, steps: seq<Step>, k: nat, i: nat)
    requires Trace(cfg, trace, steps) && i <= |steps| < |trace| && MissedSince(trace, steps, k, i)
    ensures trace[k].earlyStop && trace[k].ctxDone
  {
    hide Next, Inv, PhaseOk, PendingOk, IdleOk, LeaveOk, GivesUp;
    RunCompletes(cfg, trace, steps, k);
    assert Next(cfg, trace[k], trace[k + 1], steps[k]);
    InvGivesFrame(cfg, trace[k]);
    GivesUpAfterStop(cfg, trace[k], trace[k + 1], steps[k]);
  }

  lemma InvGivesFrame(cfg: Config, s: Sys)
    requires Inv(cfg, s)
    ensures Frame(cfg, s)
  {
  }

  lemma NoDoublePanic(cfg: Config, s: Sys)
    requires Inv(cfg, s)
    ensures !s.core.panicked && forall n :: n in s.core.procs ==> !s.core.procs[n].panicked
  {
    hide ConfigOk, OpOk, RunnerOk, RestOk, StopOk, HolderOk, ReservationOk, WaiterOk;
    forall n | n in s.core.procs ensures !s.core.procs[n].panicked {
      assert UnitOk(ViewOf(s, n));
    }
  }

  /** Whatever channel Run watches, even one that has been replaced since, is closed when
      the supervisor is idle: Run cannot wait for it in vain. */
  lemma WatchedChannelClosed(cfg: Config, trace: seq<Sys>, steps: seq<Step>, i: nat)
    requires Trace(cfg, trace, steps) && i < |trace| && trace[i].phase.Watching? && trace[i].core.idle
    ensures trace[i].phase.done in trace[i].core.closedDone
  {
    hide Next, Init, Trace, Frame, Units, PhaseOk, PendingOk, AllDone;
    RunCompletes(cfg, trace, steps, i);
    DoneOfFrame(cfg, trace[i]);
  }

  /** When Run has left through its completion channel, no process has a command or a
      restart pending, and none is ever launched again. */
  lemma NothingAfterDone(cfg: Config, trace: seq<Sys>, steps: seq<Step>, i: nat, n: string)
    requires Trace(cfg, trace, steps) && i < |trace| && ViaDone(trace[i].phase) && n in cfg.deps
    ensures n in trace[i].core.procs
    ensures trace[i].core.procs[n].runner.None? && Settled(trace[i].core.procs[n])
    ensures i < |steps| ==> !steps[i].LaunchStep? && ViaDone(trace[i + 1].phase)
  {
    hide Next, Init, Units, PhaseOk, PendingOk, IdleOk, Settled;
    RunCompletes(cfg, trace, steps, i);
    AllIdle(cfg, trace[i], n);
    if i < |steps| {
      assert Next(cfg, trace[i], trace[i + 1], steps[i]);
      if steps[i].LaunchStep? { LaunchPlace(cfg, trace[i], trace[i + 1], steps[i]); }
      ViaDoneStays(cfg, trace[i], trace[i + 1], steps[i]);
    }
  }

  lemma AllIdle(cfg: Config, s: Sys, n: string)
    requires Inv(cfg, s) && AllDone(s.core) && n in cfg.deps
    ensures n in s.core.procs && s.core.procs[n].runner.None? && Settled(s.core.procs[n])
  {
    hide UnitOk, Settled;
    FrameKeys(cfg, s);
    SettledAt(ViewOf(s, n));
  }

  lemma ViaDoneStays(cfg: Config, s: Sys, s': Sys, step: Step)
    requires PhaseOk(s) && Next(cfg, s, s', step) && ViaDone(s.phase)
    ensures ViaDone(s'.phase)
  {
    hide CommandNext, MoveNext, TurnNext, StartNext, OutputNext, EndNext, RunNext;
    if CommandNext(cfg, s, s', step) { CommandViaDone(cfg, s, s', step); }
    else if MoveNext(cfg, s, s', step) { MoveFrame(cfg, s, s', step); }
    else if TurnNext(cfg, s, s', step) { TurnViaDone(cfg, s, s', step); }
    else if StartNext(cfg, s, s', step) { StartFrame(cfg, s, s', step); }
    else if OutputNext(cfg, s, s', step) { OutputFrame(cfg, s, s', step); }
    else if EndNext(cfg, s, s', step) { EndFrame(cfg, s, s', step); }
    else { RunViaDone(cfg, s, s', step); }
  }

  lemma CommandViaDone(cfg: Config, s: Sys, s': Sys, step: Step)
    requires CommandNext(cfg, s, s', step) && ViaDone(s.phase)
    ensures ViaDone(s'.phase)
  {
    hide IsStartOrder, IsFullStopOrder, IsStopOrder;
  }

  lemma TurnViaDone(cfg: Config, s: Sys, s': Sys, step: Step)
    requires PhaseOk(s) && TurnNext(cfg, s, s', step) && ViaDone(s.phase)
    ensures ViaDone(s'.phase)
  {
    hide MarkOne, MarkEvents, Admit, Skip, TurnStopping, LeaveTimer, DepsReady, Startable;
  }

  lemma RunViaDone(cfg: Config, s: Sys, s': Sys, step: Step)
    requires RunNext(cfg, s, s', step) && ViaDone(s.phase)
    ensures ViaDone(s'.phase)
  {
  }
}
