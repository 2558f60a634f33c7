/** What a step does, read off its definition: which record it writes, and how the holder
    of the operations lock comes to start a process. */
module SupervisorEffects {
  import opened DependencyGraph
  import opened StopOrder
  import opened Lifecycle
  import opened Options
  import opened SupervisorMachine
  import opened SupervisorUnit
  import opened SupervisorInvariant

  /** What a step does to the record of process n. */
  function RecordAfter(cfg: Config, s: Sys, step: Step, n: string): Proc
    requires n in s.core.procs
  {
    var p := s.core.procs[n];
    var at := At(s.holder, n);
    match step
    case SkipStep => if at.SkipAt? then Skip(p) else p
    case MarkStep => if s.holder.Busy? && n in StopList(s.holder.op) then MarkOne(p) else p
    case TurnStep(m) => if m == n then TurnStopping(p) else p
    case AdmitStep => if at.ManualGate? then Admit(p) else p
    case LaunchStep(spec) => if at.Begin? then Launch(p, spec) else p
    case CommitStep => if at.CommitAt? then Commit(p) else p
    case FailStep => if at.Fail? then FailStart(p) else p
    case ReturnStep =>
      if s.holder.Busy? && s.holder.op.OpTimer? && s.holder.op.run.name == n then LeaveTimer(p, s.holder.op.run.gen) else p
    case TimerLapse(r) => if r.name == n then LeaveTimer(p, r.gen) else p
    case CancelSeen(r) => if r.name == n then LeaveTimer(p, r.gen) else p
    case ForwardAdd(r) => if r.name == n && n in cfg.retains then AddLog(p, cfg.retains[n]) else p
    case ExitStep(r) =>
      if r.name == n && HasWaiter(s, r) && TheWaiter(s, r).phase.Done? && n in cfg.policy
      then Exit(p, ExitRestarts(cfg.policy[n], p, s.core.stopping, TheWaiter(s, r).phase.outcome), TheWaiter(s, r).phase.outcome)
      else p
    case CloseStep(r) =>
      if r.name == n && HasWaiter(s, r) && TheWaiter(s, r).phase.Publishing? then CloseFinished(p, TheWaiter(s, r).phase.finished)
      else p
    case ReserveStep(r) =>
      if r.name == n && HasWaiter(s, r) && TheWaiter(s, r).phase.Publishing? then CloseFinished(p, TheWaiter(s, r).phase.finished)
      else p
    case _ => p
  }

  /** What a step does to one waiter. */
  function WaiterAfter(cfg: Config, s: Sys, step: Step, r: Run): Waiter
    requires HasWaiter(s, r)
  {
    var w, p := TheWaiter(s, r), Own(s, r);
    match step
    case WaiterEmit(_) => if w.outbox != [] then w.(outbox := w.outbox[1..]) else w
    case ForwardAdd(_) =>
      if w.lines > 0 && r.name in cfg.retains then w.(lines := w.lines - 1, inHand := Some(AddLog(p, cfg.retains[r.name]).logged))
      else w
    case ForwardEmit(_) => w.(inHand := None)
    case Output(_) => w.(lines := w.lines + 1)
    case ProcessExit(_, outcome) => w.(phase := Done(outcome))
    case TimerFires(_) => w.(phase := Fired)
    case ReserveStep(_) => w.(phase := Reserved)
    case ExitStep(_) =>
      if w.phase.Done? && r.name in cfg.policy then
        var restart := ExitRestarts(cfg.policy[r.name], p, s.core.stopping, w.phase.outcome);
        w.(phase := Publishing(restart, p.finished), outbox := ExitEvents(r.name, p, restart, w.phase.outcome))
      else w
    case _ => w
  }

  /** The waiter a step is about, if any. */
  function RunOf(step: Step): Option<Run> {
    match step
    case WaiterEmit(r) => Some(r)
    case ForwardAdd(r) => Some(r)
    case ForwardEmit(r) => Some(r)
    case Output(r) => Some(r)
    case ProcessExit(r, _) => Some(r)
    case TimerFires(r) => Some(r)
    case ReserveStep(r) => Some(r)
    case ExitStep(r) => Some(r)
    case StaleStep(r) => Some(r)
    case CloseStep(r) => Some(r)
    case CancelSeen(r) => Some(r)
    case TimerTake(r) => Some(r)
    case TimerLapse(r) => Some(r)
    case _ => None
  }

  predicate Ends(step: Step) {
    step.StaleStep? || step.CloseStep? || step.CancelSeen? || step.TimerTake? || step.TimerLapse?
  }

  /** What a step does to the waiters of process n. */
  function WaitersAfter(cfg: Config, s: Sys, step: Step, n: string): map<nat, Waiter>
    requires n in s.core.procs && n in s.waiters
  {
    var ws: map<nat, Waiter> := s.waiters[n];
    match RunOf(step)
    case Some(r) =>
      if r.name == n && r.gen in ws then
        if Ends(step) then ws - {r.gen} else ws[r.gen := WaiterAfter(cfg, s, step, r)]
      else ws
    case None =>
      if step.SpawnStep? && At(s.holder, n).Spawn? then ws[s.core.procs[n].gen := Waiter(Live, 0, None, [])] else ws
  }

  /** How the holder may have come to its new place with process n. */
  ghost predicate Approached(cfg: Config, s: Sys, s': Sys, step: Step, n: string) {
    var at, at' := At(s.holder, n), At(s'.holder, n);
    && (at'.ManualWait? && at' != at ==> step.AdmitStep? && at.ManualGate? && Startable(cfg, s.core, n))
    && (at'.Begin? && !at.Begin? ==>
          || at.ManualWait?
          || (step.PickStep? && DepsReady(cfg, s.core, n))
          || (step.TimerTake? && step.run.name == n && n in s.core.procs
              && TimerValid(s.core.procs[n], step.run.gen, s.core.stopping, s.ctxDone)))
    && (at'.Exec? && !at.Exec? ==> at.Begin? && step == LaunchStep(true))
    && (at'.CommitAt? && !at.CommitAt? ==> at.Exec?)
    && (at'.Spawn? && !at.Spawn? ==> at.CommitAt? && step.CommitStep?)
    && (at'.Fail? && !at.Fail? ==>
          || at.Exec?
          || (at.Begin? && (step == LaunchStep(false) || (step.RefuseStep? && (s.core.stopping || s.ctxDone)))))
  }

  /** What a step of the machine means for process n. */
  ghost predicate Effect(cfg: Config, s: Sys, s': Sys, step: Step, n: string)
    requires n in s.core.procs && n in s.waiters
  {
    && n in s'.core.procs && s'.core.procs[n] == RecordAfter(cfg, s, step, n)
    && n in s'.waiters && s'.waiters[n] == WaitersAfter(cfg, s, step, n)
    && Approached(cfg, s, s', step, n)
  }

  /** Steps that change no process. */
  predicate IsMove(step: Step) {
    || step.RunBegin? || step.StartCmd? || step.StopCmd? || step.RestartCmd? || step.StopAllCmd?
    || step.DoneTake? || step.InitialEndStep? || step.StopEndStep? || step.StopReturns? || step.JoinStep?
    || step.PassStep? || step.RestartContextStep? || step.ResumeReadStep? || step.ResumeStep? || step.ContextStep?
    || step.RejectStep?
  }

  lemma MoveRecord(cfg: Config, s: Sys, step: Step, n: string)
    requires IsMove(step) && n in s.core.procs
    ensures s.core.procs[n] == RecordAfter(cfg, s, step, n)
  {
    hide Skip, MarkOne, TurnStopping, Admit, Launch, Commit, FailStart, LeaveTimer, AddLog, Exit, ExitRestarts,
         CloseFinished, HasWaiter, TheWaiter;
  }

  lemma MoveWaiters(cfg: Config, s: Sys, step: Step, n: string)
    requires IsMove(step) && n in s.core.procs && n in s.waiters
    ensures s.waiters[n] == WaitersAfter(cfg, s, step, n)
  {
    hide WaiterAfter;
  }

  lemma MoveApproach(cfg: Config, s: Sys, s': Sys, step: Step, n: string)
    requires s'.holder.Busy? ==> Elsewhere(s'.holder.pc)
    ensures Approached(cfg, s, s', step, n)
  {
  }

  lemma MoveEffects(cfg: Config, s: Sys, s': Sys, step: Step, n: string)
    requires Moved(s, s') && IsMove(step) && n in s.core.procs && n in s.waiters
    ensures Effect(cfg, s, s', step, n)
  {
    hide RecordAfter, WaitersAfter, Approached;
    MoveRecord(cfg, s, step, n);
    MoveWaiters(cfg, s, step, n);
    MoveApproach(cfg, s, s', step, n);
  }

  lemma SendEffect(cfg: Config, s: Sys, s': Sys, n: string)
    requires DoHolderEmit(s, s') && n in s.core.procs && n in s.waiters
    ensures Effect(cfg, s, s', HolderEmit, n)
  {
  }

  lemma PickEffect(cfg: Config, s: Sys, s': Sys, n: string)
    requires DoPick(cfg, s, s') && n in s.core.procs && n in s.waiters
    ensures Effect(cfg, s, s', PickStep, n)
  {
  }

  lemma SkipEffect(cfg: Config, s: Sys, s': Sys, n: string)
    requires DoSkip(s, s') && n in s.core.procs && n in s.waiters
    ensures Effect(cfg, s, s', SkipStep, n)
  {
  }

  lemma MarkEffect(cfg: Config, s: Sys, s': Sys, n: string)
    requires DoMark(s, s') && n in s.core.procs && n in s.waiters
    ensures Effect(cfg, s, s', MarkStep, n)
  {
  }

  lemma TurnEffect(cfg: Config, s: Sys, s': Sys, m: string, n: string)
    requires DoTurn(s, s', m) && n in s.core.procs && n in s.waiters
    ensures Effect(cfg, s, s', TurnStep(m), n)
  {
  }

  lemma AdmitEffect(cfg: Config, s: Sys, s': Sys, n: string)
    requires DoAdmit(cfg, s, s') && n in s.core.procs && n in s.waiters
    ensures Effect(cfg, s, s', AdmitStep, n)
  {
  }

  lemma WaitEffect(cfg: Config, s: Sys, s': Sys, n: string)
    requires DoWait(s, s') && n in s.core.procs && n in s.waiters
    ensures Effect(cfg, s, s', WaitStep, n)
  {
  }

  lemma RefuseEffect(cfg: Config, s: Sys, s': Sys, n: string)
    requires DoRefuse(s, s') && n in s.core.procs && n in s.waiters
    ensures Effect(cfg, s, s', RefuseStep, n)
  {
  }

  lemma LaunchEffect(cfg: Config, s: Sys, s': Sys, spec: bool, n: string)
    requires DoLaunch(s, s', spec) && n in s.core.procs && n in s.waiters
    ensures Effect(cfg, s, s', LaunchStep(spec), n)
  {
    hide MarkOne, TurnStopping, Admit, Skip, Launch, Commit, FailStart, LeaveTimer, AddLog, Exit, ExitRestarts,
         ExitEvents, CloseFinished, AllDone;
  }

  lemma ExecEffect(cfg: Config, s: Sys, s': Sys, ok: bool, n: string)
    requires DoExec(s, s', ok) && n in s.core.procs && n in s.waiters
    ensures Effect(cfg, s, s', ExecStep(ok), n)
  {
  }

  lemma CommitEffect(cfg: Config, s: Sys, s': Sys, n: string)
    requires DoCommit(s, s') && n in s.core.procs && n in s.waiters
    ensures Effect(cfg, s, s', CommitStep, n)
  {
  }

  lemma SpawnEffect(cfg: Config, s: Sys, s': Sys, n: string)
    requires DoSpawn(s, s') && n in s.core.procs && n in s.waiters
    ensures Effect(cfg, s, s', SpawnStep, n)
  {
  }

  lemma FailEffect(cfg: Config, s: Sys, s': Sys, n: string)
    requires DoFail(s, s') && n in s.core.procs && n in s.waiters
    ensures Effect(cfg, s, s', FailStep, n)
  {
    hide MarkOne, TurnStopping, Admit, Skip, Launch, Commit, FailStart, LeaveTimer, AddLog, Exit, ExitRestarts,
         ExitEvents, CloseFinished, AllDone;
  }

  lemma ReturnEffect(cfg: Config, s: Sys, s': Sys, n: string)
    requires DoReturn(s, s') && n in s.core.procs && n in s.waiters
    ensures Effect(cfg, s, s', ReturnStep, n)
  {
  }

  lemma TimerTakeEffect(cfg: Config, s: Sys, s': Sys, r: Run, n: string)
    requires DoTimerTake(s, s', r) && n in s.core.procs && n in s.waiters
    ensures Effect(cfg, s, s', TimerTake(r), n)
  {
  }

  lemma TimerLapseEffect(cfg: Config, s: Sys, s': Sys, r: Run, n: string)
    requires DoTimerLapse(s, s', r) && n in s.core.procs && n in s.waiters
    ensures Effect(cfg, s, s', TimerLapse(r), n)
  {
  }

  lemma ExitEffect(cfg: Config, s: Sys, s': Sys, r: Run, n: string)
    requires DoExit(cfg, s, s', r) && n in s.core.procs && n in s.waiters
    ensures Effect(cfg, s, s', ExitStep(r), n)
  {
    hide MarkOne, TurnStopping, Admit, Skip, Launch, Commit, FailStart, LeaveTimer, AddLog, Exit, ExitRestarts,
         ExitEvents, CloseFinished, AllDone;
  }

  lemma CloseEffect(cfg: Config, s: Sys, s': Sys, r: Run, n: string)
    requires DoClose(s, s', r) && n in s.core.procs && n in s.waiters
    ensures Effect(cfg, s, s', CloseStep(r), n)
  {
  }

  lemma ReserveEffect(cfg: Config, s: Sys, s': Sys, r: Run, n: string)
    requires DoReserve(s, s', r) && n in s.core.procs && n in s.waiters
    ensures Effect(cfg, s, s', ReserveStep(r), n)
  {
  }

  lemma CancelSeenEffect(cfg: Config, s: Sys, s': Sys, r: Run, n: string)
    requires DoCancelSeen(s, s', r) && n in s.core.procs && n in s.waiters
    ensures Effect(cfg, s, s', CancelSeen(r), n)
  {
  }

  lemma TurnEffects(cfg: Config, s: Sys, s': Sys, step: Step, n: string)
    requires TurnNext(cfg, s, s', step) && n in s.core.procs && n in s.waiters
    ensures Effect(cfg, s, s', step, n)
  {
    hide Effect, DoHolderEmit, DoPick, DoSkip, DoMark, DoTurn, DoAdmit, DoReturn;
    match step
    case HolderEmit => SendEffect(cfg, s, s', n);
    case PickStep => PickEffect(cfg, s, s', n);
    case SkipStep => SkipEffect(cfg, s, s', n);
    case MarkStep => MarkEffect(cfg, s, s', n);
    case TurnStep(m) => TurnEffect(cfg, s, s', m, n);
    case AdmitStep => AdmitEffect(cfg, s, s', n);
    case ReturnStep => ReturnEffect(cfg, s, s', n);
    case _ =>
  }

  lemma StartEffects(cfg: Config, s: Sys, s': Sys, step: Step, n: string)
    requires StartNext(cfg, s, s', step) && n in s.core.procs && n in s.waiters
    ensures Effect(cfg, s, s', step, n)
  {
    hide Effect, DoWait, DoRefuse, DoLaunch, DoExec, DoCommit, DoSpawn, DoFail;
    match step
    case WaitStep => WaitEffect(cfg, s, s', n);
    case RefuseStep => RefuseEffect(cfg, s, s', n);
    case LaunchStep(spec) => LaunchEffect(cfg, s, s', spec, n);
    case ExecStep(ok) => ExecEffect(cfg, s, s', ok, n);
    case CommitStep => CommitEffect(cfg, s, s', n);
    case SpawnStep => SpawnEffect(cfg, s, s', n);
    case FailStep => FailEffect(cfg, s, s', n);
    case _ =>
  }

  lemma OutputRecord(cfg: Config, s: Sys, s': Sys, step: Step, n: string)
    requires OutputNext(cfg, s, s', step) && n in s.core.procs
    ensures n in s'.core.procs && s'.core.procs[n] == RecordAfter(cfg, s, step, n)
  {
    hide Skip, MarkOne, TurnStopping, Admit, Launch, Commit, FailStart, LeaveTimer, AddLog, Exit, ExitState,
         ExitRestarts, ExitEvents, CloseFinished, TimerValid, DepsReady, Startable, AllDone, MarkEvents;
  }

  lemma OutputWaiters(cfg: Config, s: Sys, s': Sys, step: Step, n: string)
    requires OutputNext(cfg, s, s', step) && n in s.core.procs && n in s.waiters
    ensures n in s'.waiters && s'.waiters[n] == WaitersAfter(cfg, s, step, n)
  {
    hide Skip, MarkOne, TurnStopping, Admit, Launch, Commit, FailStart, LeaveTimer, AddLog, Exit, ExitState,
         ExitRestarts, ExitEvents, CloseFinished, TimerValid, DepsReady, Startable, AllDone, MarkEvents;
  }

  lemma OutputApproach(cfg: Config, s: Sys, s': Sys, step: Step, n: string)
    requires OutputNext(cfg, s, s', step) && n in s.core.procs
    ensures Approached(cfg, s, s', step, n)
  {
    hide Skip, MarkOne, TurnStopping, Admit, Launch, Commit, FailStart, LeaveTimer, AddLog, Exit, ExitState,
         ExitRestarts, ExitEvents, CloseFinished, TimerValid, DepsReady, Startable, AllDone, MarkEvents;
  }

  lemma OutputEffects(cfg: Config, s: Sys, s': Sys, step: Step, n: string)
    requires OutputNext(cfg, s, s', step) && n in s.core.procs && n in s.waiters
    ensures Effect(cfg, s, s', step, n)
  {
    hide OutputNext, RecordAfter, WaitersAfter, Approached;
    OutputRecord(cfg, s, s', step, n);
    OutputWaiters(cfg, s, s', step, n);
    OutputApproach(cfg, s, s', step, n);
  }

  lemma EndEffects(cfg: Config, s: Sys, s': Sys, step: Step, n: string)
    requires Inv(cfg, s) && EndNext(cfg, s, s', step) && n in s.core.procs && n in s.waiters
    ensures Effect(cfg, s, s', step, n)
  {
    hide Effect, Inv, DoExit, DoStale, DoClose, DoReserve, DoCancelSeen, DoTimerTake, DoTimerLapse;
    match step
    case ExitStep(r) => ExitEffect(cfg, s, s', r, n);
    case StaleStep(r) => StaleNever(cfg, s, s', r);
    case CloseStep(r) => CloseEffect(cfg, s, s', r, n);
    case ReserveStep(r) => ReserveEffect(cfg, s, s', r, n);
    case CancelSeen(r) => CancelSeenEffect(cfg, s, s', r, n);
    case TimerTake(r) => TimerTakeEffect(cfg, s, s', r, n);
    case TimerLapse(r) => TimerLapseEffect(cfg, s, s', r, n);
    case _ =>
  }

  lemma RunEffects(cfg: Config, s: Sys, s': Sys, step: Step, n: string)
    requires RunNext(cfg, s, s', step) && n in s.core.procs && n in s.waiters
    ensures Effect(cfg, s, s', step, n)
  {
    StillEffect(cfg, s, s', step, n);
  }

  lemma StillEffect(cfg: Config, s: Sys, s': Sys, step: Step, n: string)
    requires s'.core == s.core && s'.holder == s.holder && s'.waiters == s.waiters && n in s.core.procs
    requires n in s.waiters
    requires step.Watch? || step.Announce? || step.CloseEvents? || step.ContextCancel?
    ensures Effect(cfg, s, s', step, n)
  {
    hide Skip, MarkOne, TurnStopping, Admit, Launch, Commit, FailStart, LeaveTimer, AddLog, Exit, ExitState,
         ExitRestarts, ExitEvents, CloseFinished, WaiterAfter;
  }

  lemma Effects(cfg: Config, s: Sys, s': Sys, step: Step, n: string)
    requires Inv(cfg, s) && Next(cfg, s, s', step) && n in s.core.procs
    ensures n in s.waiters
    ensures Effect(cfg, s, s', step, n)
  {
    hide Effect, Frame, Units, Moved, CommandNext, MoveNext, TurnNext, StartNext, OutputNext, EndNext, RunNext;
    FrameKeys(cfg, s);
    if CommandNext(cfg, s, s', step) {
      CommandsKeep(cfg, s, s', step);
      AreMoves(cfg, s, s', step);
      MoveEffects(cfg, s, s', step, n);
    } else if MoveNext(cfg, s, s', step) {
      MovesKeep(cfg, s, s', step);
      AreMoves(cfg, s, s', step);
      MoveEffects(cfg, s, s', step, n);
    } else if TurnNext(cfg, s, s', step) {
      TurnEffects(cfg, s, s', step, n);
    } else if StartNext(cfg, s, s', step) {
      StartEffects(cfg, s, s', step, n);
    } else if OutputNext(cfg, s, s', step) {
      OutputEffects(cfg, s, s', step, n);
    } else if EndNext(cfg, s, s', step) {
      EndEffects(cfg, s, s', step, n);
    } else {
      RunEffects(cfg, s, s', step, n);
    }
  }

  lemma AreMoves(cfg: Config, s: Sys, s': Sys, step: Step)
    requires CommandNext(cfg, s, s', step) || MoveNext(cfg, s, s', step)
    ensures IsMove(step)
  {
    hide DoRunBegin, DoStartCmd, DoStopCmd, DoRestartCmd, DoStopAllCmd, DoDoneTake, DoInitialEnd, DoStopEnd,
         DoStopReturns, DoJoin, DoPass, DoRestartContext, DoResumeRead, DoResume, DoContext, DoReject;
  }

  // ---------- What each group of steps leaves alone ----------

  lemma OutputFrame(cfg: Config, s: Sys, s': Sys, step: Step)
    requires OutputNext(cfg, s, s', step)
    ensures s'.holder == s.holder && s'.phase == s.phase && s'.ctxDone == s.ctxDone && s'.earlyStop == s.earlyStop
    ensures s'.core.idle == s.core.idle && s'.core.done == s.core.done && s'.core.closedDone == s.core.closedDone
    ensures s'.core.stopping == s.core.stopping
  {
    hide AddLog, HasWaiter, TheWaiter, Own;
  }

  lemma EndFrame(cfg: Config, s: Sys, s': Sys, step: Step)
    requires EndNext(cfg, s, s', step)
    ensures s' == s.(core := s'.core, waiters := s'.waiters, holder := s'.holder)
    ensures s'.core.stopping == s.core.stopping && s'.core.done == s.core.done
    ensures s'.holder == s.holder || (step.TimerTake? && s.holder.Free? && s'.holder == Take(OpTimer(step.run), Begin(step.run.name)))
  {
    hide AllDone, Exit, ExitRestarts, ExitEvents, ExitState, CloseFinished, TimerValid;
  }

  lemma RunFrame(cfg: Config, s: Sys, s': Sys, step: Step)
    requires RunNext(cfg, s, s', step)
    ensures s' == s.(ctxDone := s'.ctxDone, events := s'.events, phase := s'.phase)
  {
  }

  lemma MoveFrame(cfg: Config, s: Sys, s': Sys, step: Step)
    requires MoveNext(cfg, s, s', step)
    ensures s.holder.Busy? && s'.holder.Busy? && StopList(s'.holder.op) == StopList(s.holder.op)
    ensures s' == s.(core := s'.core, holder := s'.holder)
    ensures s'.core == s.core.(idle := s'.core.idle, closedDone := s'.core.closedDone, panicked := s'.core.panicked)
    ensures || s'.holder.op == s.holder.op
            || (step.ResumeReadStep? && s.holder.op.OpRestart? && s'.holder.op == s.holder.op.(resume := s'.holder.op.resume))
  {
    hide AllDone, Startable;
  }

  lemma StartFrame(cfg: Config, s: Sys, s': Sys, step: Step)
    requires StartNext(cfg, s, s', step)
    ensures s.holder.Busy? && s'.holder.Busy? && s'.holder.op == s.holder.op
    ensures s' == s.(core := s'.core, holder := s'.holder, waiters := s'.waiters)
    ensures s'.core.stopping == s.core.stopping
    ensures s.holder.pc.ManualWait? || Launchable(s.holder.pc)
    ensures || Launchable(s'.holder.pc) || s'.holder.pc.InitialNext? || s'.holder.pc.Return?
            || (s'.holder.pc.ResumeNext? && s.holder.op.OpRestart?)
  {
    hide AllDone, FailStart, Launch, Commit;
  }

  lemma TurnFrame(cfg: Config, s: Sys, s': Sys, step: Step)
    requires TurnNext(cfg, s, s', step)
    ensures s.holder.Busy?
    ensures s'.ctxDone == s.ctxDone && s'.earlyStop == s.earlyStop && s'.waiters == s.waiters
    ensures s'.core.stopping == s.core.stopping && s'.core.idle == s.core.idle && s'.core.done == s.core.done
    ensures s'.core.closedDone == s.core.closedDone
    ensures !step.ReturnStep? ==> s'.holder.Busy? && s'.holder.op == s.holder.op && s'.phase == s.phase
    ensures step.ReturnStep? ==> s'.holder.Free?
  {
    hide MarkOne, MarkEvents, Admit, Skip, TurnStopping, LeaveTimer, DepsReady, Startable;
  }
}
