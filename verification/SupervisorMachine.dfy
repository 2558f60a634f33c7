/** The supervisor as a step machine. One actor at a time holds the operations lock;
    every launched run has a waiter, which also forwards its output. Each critical
    section of the inner lock is one step, as is each event sent, each channel
    operation that can block, and each act of the environment. */
module SupervisorMachine {
  import opened DependencyGraph
  import opened StopOrder
  import opened Lifecycle
  import opened Options

  // ---------- Actors ----------

  /** One launch of a process. */
  datatype Run = Run(name: string, gen: nat)

  datatype Op =
    | OpInitial(names: seq<string>)
    | OpStart(name: string)
    | OpStop(order: seq<string>)
    | OpRestart(name: string, order: seq<string>, resume: set<string>)
    | OpStopAll(order: seq<string>, byRun: bool)
    | OpTimer(run: Run)

  /** Where the holder of the operations lock stands. */
  datatype Pc =
    | InitialNext
    | SkipAt(name: string)
    | Mark
    | StopNext
    | StopWait(gen: nat, finished: Option<nat>)
    | StopJoin(finished: Option<nat>)
    | RestartContext
    | ResumeRead
    | ResumeNext
    | ManualContext(name: string)
    | ManualGate(name: string)
    | ManualWait(name: string, finished: Option<nat>)
    | Begin(name: string)
    | Exec(name: string)
    | CommitAt(name: string)
    | Spawn(name: string)
    | Fail(name: string)
    | Return

  /** outbox holds the events the actor still has to send, in order; launched the
      processes this operation has brought to running. */
  datatype Holder =
    | Free
    | Busy(op: Op, pc: Pc, index: nat, outbox: seq<Event>, launched: seq<string>, failed: bool)

  datatype WaiterPhase =
    | Live
    | Done(outcome: Outcome)
    | Publishing(restart: bool, finished: Option<nat>)
    | Reserved
    | Fired

  /** lines counts output not yet forwarded, inHand is the cursor of a line that is in
      the buffer but whose event has not been sent. */
  datatype Waiter = Waiter(phase: WaiterPhase, lines: nat, inHand: Option<nat>, outbox: seq<Event>)

  /** Progress of the Run method; viaDone tells how it left its loop. */
  datatype RunPhase =
    | NotCalled
    | StartingUp
    | AtTop
    | Watching(done: nat)
    | StoppingAll
    | Draining(viaDone: bool)
    | Announced(viaDone: bool)
    | Finished(viaDone: bool)

  datatype Sys = Sys(
    core: Core,
    ctxDone: bool,
    holder: Holder,
    waiters: map<string, map<nat, Waiter>>,
    events: seq<Event>,
    phase: RunPhase,
    earlyStop: bool)

  ghost predicate Init(cfg: Config, s: Sys) {
    ConfigOk(cfg) && s == Sys(NewCore(cfg), false, Free, map n | n in cfg.deps :: map[], [], NotCalled, false)
  }

  predicate Began(s: Sys) {
    !s.phase.NotCalled?
  }

  /** commandContext succeeds. */
  predicate ContextOk(s: Sys) {
    Began(s) && !s.core.stopping && !s.ctxDone
  }

  function Emit(s: Sys, e: Event): Sys {
    if s.phase.Finished? then s else s.(events := s.events + [e])
  }

  /** Where an operation continues after trying to start a process. */
  function After(h: Holder, ok: bool): Holder
    requires h.Busy?
  {
    match h.op
    case OpInitial(_) => h.(pc := InitialNext, index := h.index + 1)
    case OpRestart(_, _, _) => h.(pc := ResumeNext, failed := h.failed || !ok)
    case _ => h.(pc := Return, failed := h.failed || !ok)
  }

  function StopList(op: Op): seq<string> {
    match op
    case OpStop(order) => order
    case OpRestart(_, order, _) => order
    case OpStopAll(order, _) => order
    case _ => []
  }

  /** Dependencies first, every process once. */
  ghost predicate IsStartOrder(cfg: Config, names: seq<string>) {
    Enumerates(names, cfg.deps.Keys) && DependenciesFirst(cfg.deps, names)
  }

  ghost predicate IsFullStopOrder(cfg: Config, order: seq<string>) {
    Enumerates(order, cfg.deps.Keys) && DependentsFirst(cfg.deps, order)
  }

  // ---------- Steps of the lock holder ----------

  datatype Step =
    // taking the operations lock
    | RunBegin(names: seq<string>)
    | StartCmd(name: string)
    | StopCmd(name: string, order: seq<string>)
    | RestartCmd(name: string, order: seq<string>)
    | StopAllCmd(order: seq<string>, byRun: bool)
    | TimerTake(run: Run)
    | TimerLapse(run: Run)
    | DoneTake
    // holding it
    | HolderEmit
    | PickStep
    | InitialEndStep
    | SkipStep
    | MarkStep
    | TurnStep(name: string)
    | PassStep(name: string)
    | StopEndStep
    | StopReturns(ok: bool)
    | JoinStep
    | RestartContextStep
    | ResumeReadStep
    | ResumeStep
    | ContextStep
    | AdmitStep
    | RejectStep
    | WaitStep
    | RefuseStep
    | LaunchStep(spec: bool)
    | ExecStep(ok: bool)
    | CommitStep
    | SpawnStep
    | FailStep
    | ReturnStep
    // waiters
    | WaiterEmit(run: Run)
    | ForwardAdd(run: Run)
    | ForwardEmit(run: Run)
    | ExitStep(run: Run)
    | StaleStep(run: Run)
    | CloseStep(run: Run)
    | ReserveStep(run: Run)
    | CancelSeen(run: Run)
    // Run
    | Watch
    | Announce
    | CloseEvents
    // the environment
    | Output(run: Run)
    | ProcessExit(run: Run, outcome: Outcome)
    | TimerFires(run: Run)
    | ContextCancel

  predicate HasWaiter(s: Sys, r: Run) {
    r.name in s.core.procs && r.name in s.waiters && r.gen in s.waiters[r.name]
  }

  function TheWaiter(s: Sys, r: Run): Waiter
    requires HasWaiter(s, r)
  {
    s.waiters[r.name][r.gen]
  }

  function Own(s: Sys, r: Run): Proc
    requires HasWaiter(s, r)
  {
    s.core.procs[r.name]
  }

  function PutWaiter(s: Sys, r: Run, w: Waiter): Sys
    requires r.name in s.waiters
  {
    var ws: map<nat, Waiter> := s.waiters[r.name][r.gen := w];
    s.(waiters := s.waiters[r.name := ws])
  }

  function DropWaiter(s: Sys, r: Run): Sys
    requires r.name in s.waiters
  {
    s.(waiters := s.waiters[r.name := s.waiters[r.name] - {r.gen}])
  }

  function PutProc(s: Sys, n: string, p: Proc): Sys {
    s.(core := Put(s.core, n, p))
  }

  function Take(op: Op, pc: Pc): Holder {
    Busy(op, pc, 0, [], [], false)
  }

  ghost predicate DoRunBegin(cfg: Config, s: Sys, s': Sys, names: seq<string>) {
    && s.holder.Free? && s.phase.NotCalled? && IsStartOrder(cfg, names)
    && s' == s.(phase := StartingUp, holder := Take(OpInitial(names), InitialNext))
  }

  ghost predicate DoStartCmd(s: Sys, s': Sys, n: string) {
    s.holder.Free? && s' == s.(holder := Take(OpStart(n), ManualContext(n)))
  }

  ghost predicate DoStopCmd(cfg: Config, s: Sys, s': Sys, n: string, order: seq<string>) {
    && s.holder.Free? && n in cfg.deps && IsStopOrder(cfg.deps, n, order)
    && s' == s.(holder := Take(OpStop(order), Mark), earlyStop := s.earlyStop || !Began(s))
  }

  ghost predicate DoRestartCmd(cfg: Config, s: Sys, s': Sys, n: string, order: seq<string>) {
    && s.holder.Free? && n in cfg.deps && IsStopOrder(cfg.deps, n, order)
    && s' == s.(holder := Take(OpRestart(n, order, {}), RestartContext))
  }

  ghost predicate DoStopAllCmd(cfg: Config, s: Sys, s': Sys, order: seq<string>, byRun: bool) {
    && s.holder.Free? && IsFullStopOrder(cfg, order)
    && (byRun ==> s.ctxDone && (s.phase.AtTop? || s.phase.Watching?))
    && s' == s.(holder := Take(OpStopAll(order, byRun), Mark),
                core := s.core.(stopping := true),
                phase := if byRun then StoppingAll else s.phase,
                earlyStop := s.earlyStop || !Began(s))
  }

  /** A fired timer gets the lock: it launches only if its reservation still stands. */
  ghost predicate DoTimerTake(s: Sys, s': Sys, r: Run) {
    && s.holder.Free? && HasWaiter(s, r) && TheWaiter(s, r).phase.Fired?
    && TimerValid(Own(s, r), r.gen, s.core.stopping, s.ctxDone)
    && s' == DropWaiter(s, r).(holder := Take(OpTimer(r), Begin(r.name)))
  }

  ghost predicate DoTimerLapse(s: Sys, s': Sys, r: Run) {
    && s.holder.Free? && HasWaiter(s, r) && TheWaiter(s, r).phase.Fired?
    && !TimerValid(Own(s, r), r.gen, s.core.stopping, s.ctxDone)
    && s' == PutProc(DropWaiter(s, r), r.name, LeaveTimer(Own(s, r), r.gen))
  }

  /** Run found its completion channel closed and looks again under the lock. */
  ghost predicate DoDoneTake(s: Sys, s': Sys) {
    && s.holder.Free? && s.phase.Watching? && s.phase.done in s.core.closedDone
    && s' == if s.core.idle then s.(core := s.core.(stopping := true), phase := Draining(true)) else s.(phase := AtTop)
  }

  ghost predicate DoHolderEmit(s: Sys, s': Sys) {
    && s.holder.Busy? && s.holder.outbox != []
    && s' == Emit(s, s.holder.outbox[0]).(holder := s.holder.(outbox := s.holder.outbox[1..]))
  }

  /** The holder is ready for its next step: it has sent all its events. */
  predicate Idle(s: Sys) {
    s.holder.Busy? && s.holder.outbox == []
  }

  // startInitial

  predicate AtInitial(s: Sys) {
    Idle(s) && s.holder.op.OpInitial? && s.holder.pc.InitialNext?
  }

  /** The initial start turns to the next process. */
  ghost predicate DoPick(cfg: Config, s: Sys, s': Sys) {
    && AtInitial(s) && s.holder.index < |s.holder.op.names| && !s.ctxDone
    && var n := s.holder.op.names[s.holder.index];
       s' == s.(holder := s.holder.(pc := if DepsReady(cfg, s.core, n) then Begin(n) else SkipAt(n)))
  }

  /** The initial start has come to its end, or gives up because of cancellation. */
  ghost predicate DoInitialEnd(s: Sys, s': Sys) {
    && AtInitial(s) && (s.holder.index >= |s.holder.op.names| || s.ctxDone)
    && s' == s.(core := if s.holder.index >= |s.holder.op.names| then CheckDone(s.core) else s.core,
                holder := s.holder.(pc := Return))
  }

  ghost predicate DoSkip(s: Sys, s': Sys) {
    && Idle(s) && s.holder.pc.SkipAt? && s.holder.pc.name in s.core.procs
    && var h, n := s.holder, s.holder.pc.name;
       s' == s.(core := Put(s.core, n, Skip(s.core.procs[n])).(hadFailed := true),
                holder := h.(pc := InitialNext, index := h.index + 1,
                             outbox := Changed(n, s.core.procs[n], Skipped) + [ProcessSkipped(n)]))
  }

  // stopProcesses

  ghost predicate DoMark(s: Sys, s': Sys) {
    && Idle(s) && s.holder.pc.Mark?
    && var order := StopList(s.holder.op);
       s' == s.(core := MarkStopped(s.core, order),
                holder := s.holder.(pc := StopNext, index := 0, outbox := MarkEvents(s.core, order)))
  }

  /** The process the loop of stopProcesses turns to. */
  predicate AtTurn(s: Sys, n: string) {
    && Idle(s) && s.holder.pc.StopNext?
    && s.holder.index < |StopList(s.holder.op)| && n == StopList(s.holder.op)[s.holder.index]
    && n in s.core.procs
  }

  ghost predicate DoTurn(s: Sys, s': Sys, n: string) {
    && AtTurn(s, n) && s.core.procs[n].runner.Some?
    && var p := s.core.procs[n];
       s' == s.(core := Put(s.core, n, TurnStopping(p)),
                holder := s.holder.(pc := StopWait(p.runner.value, p.finished), outbox := Changed(n, p, Stopping)))
  }

  /** Nothing to stop. */
  ghost predicate DoPass(s: Sys, s': Sys, n: string) {
    && AtTurn(s, n) && s.core.procs[n].runner.None?
    && s' == s.(holder := s.holder.(index := s.holder.index + 1))
  }

  ghost predicate DoStopEnd(s: Sys, s': Sys) {
    && Idle(s) && s.holder.pc.StopNext?
    && var h, order := s.holder, StopList(s.holder.op);
       h.index >= |order|
       && s' == s.(core := CheckDone(s.core),
                   holder := if h.op.OpRestart? && !h.failed then h.(pc := ResumeNext, index := |order|) else h.(pc := Return))
  }

  /** Runner.Stop fails, or returns after the command has exited. */
  ghost predicate DoStopReturns(s: Sys, s': Sys, ok: bool) {
    && Idle(s) && s.holder.pc.StopWait?
    && var h, order := s.holder, StopList(s.holder.op);
       h.index < |order|
       && (ok && HasWaiter(s, Run(order[h.index], h.pc.gen)) ==> !TheWaiter(s, Run(order[h.index], h.pc.gen)).phase.Live?)
       && s' == s.(holder := if ok then h.(pc := StopJoin(h.pc.finished))
                             else h.(pc := StopNext, index := h.index + 1, failed := true,
                                     outbox := [SupervisorError(order[h.index])]))
  }

  ghost predicate DoJoin(s: Sys, s': Sys) {
    && Idle(s) && s.holder.pc.StopJoin?
    && var h, order := s.holder, StopList(s.holder.op);
       h.index < |order|
       && order[h.index] in s.core.procs
       && h.pc.finished.Some? && h.pc.finished.value in s.core.procs[order[h.index]].closed
       && s' == s.(holder := h.(pc := StopNext, index := h.index + 1))
  }

  // RestartProcess around its stop, and startManual

  ghost predicate DoRestartContext(s: Sys, s': Sys) {
    && Idle(s) && s.holder.pc.RestartContext?
    && s' == s.(holder := if ContextOk(s) then s.holder.(pc := ResumeRead) else s.holder.(pc := Return, failed := true))
  }

  ghost predicate DoResumeRead(s: Sys, s': Sys) {
    && Idle(s) && s.holder.pc.ResumeRead? && s.holder.op.OpRestart?
    && var op := s.holder.op;
       s' == s.(holder := s.holder.(pc := Mark, op := op.(resume := ResumeSet(s.core, op.order, op.name))))
  }

  ghost predicate DoResume(s: Sys, s': Sys) {
    && Idle(s) && s.holder.pc.ResumeNext? && s.holder.op.OpRestart? && s.holder.index <= |s.holder.op.order|
    && var h := s.holder;
       s' == s.(holder := if h.index == 0 then h.(pc := Return)
                          else if h.op.order[h.index - 1] in h.op.resume
                          then h.(pc := ManualContext(h.op.order[h.index - 1]), index := h.index - 1)
                          else h.(index := h.index - 1))
  }

  ghost predicate DoContext(s: Sys, s': Sys) {
    && Idle(s) && s.holder.pc.ManualContext?
    && s' == s.(holder := if ContextOk(s) then s.holder.(pc := ManualGate(s.holder.pc.name)) else After(s.holder, false))
  }

  ghost predicate DoAdmit(cfg: Config, s: Sys, s': Sys) {
    && Idle(s) && s.holder.pc.ManualGate? && Startable(cfg, s.core, s.holder.pc.name)
    && var n := s.holder.pc.name;
       s' == s.(core := Put(s.core, n, Admit(s.core.procs[n])), holder := s.holder.(pc := ManualWait(n, s.core.procs[n].finished)))
  }

  ghost predicate DoReject(cfg: Config, s: Sys, s': Sys) {
    && Idle(s) && s.holder.pc.ManualGate? && !Startable(cfg, s.core, s.holder.pc.name)
    && s' == s.(holder := After(s.holder, false))
  }

  ghost predicate DoWait(s: Sys, s': Sys) {
    && Idle(s) && s.holder.pc.ManualWait? && s.holder.pc.name in s.core.procs
    && (s.holder.pc.finished.Some? ==> s.holder.pc.finished.value in s.core.procs[s.holder.pc.name].closed)
    && s' == s.(holder := s.holder.(pc := Begin(s.holder.pc.name)))
  }

  // startProcess and markStartFailed

  /** startProcess refuses because of shutdown. */
  ghost predicate DoRefuse(s: Sys, s': Sys) {
    && Idle(s) && s.holder.pc.Begin? && (s.core.stopping || s.ctxDone)
    && s' == s.(holder := s.holder.(pc := Fail(s.holder.pc.name)))
  }

  ghost predicate DoLaunch(s: Sys, s': Sys, spec: bool) {
    && Idle(s) && s.holder.pc.Begin? && s.holder.pc.name in s.core.procs && !s.core.stopping && !s.ctxDone
    && var h, n := s.holder, s.holder.pc.name;
       s' == s.(core := Put(Busied(s.core), n, Launch(s.core.procs[n], spec)),
                holder := h.(pc := if spec then Exec(n) else Fail(n), outbox := Changed(n, s.core.procs[n], Starting)))
  }

  ghost predicate DoExec(s: Sys, s': Sys, ok: bool) {
    && Idle(s) && s.holder.pc.Exec?
    && s' == s.(holder := s.holder.(pc := if ok then CommitAt(s.holder.pc.name) else Fail(s.holder.pc.name)))
  }

  ghost predicate DoCommit(s: Sys, s': Sys) {
    && Idle(s) && s.holder.pc.CommitAt? && s.holder.pc.name in s.core.procs
    && var h, n := s.holder, s.holder.pc.name;
       s' == s.(core := Put(s.core, n, Commit(s.core.procs[n])),
                holder := h.(pc := Spawn(n), launched := h.launched + [n],
                             outbox := Changed(n, s.core.procs[n], Running) + [Started(n)]))
  }

  ghost predicate DoSpawn(s: Sys, s': Sys) {
    && Idle(s) && s.holder.pc.Spawn? && s.holder.pc.name in s.core.procs && s.holder.pc.name in s.waiters
    && var n := s.holder.pc.name;
       s' == PutWaiter(s, Run(n, s.core.procs[n].gen), Waiter(Live, 0, None, [])).(holder := After(s.holder, true))
  }

  ghost predicate DoFail(s: Sys, s': Sys) {
    && Idle(s) && s.holder.pc.Fail? && s.holder.pc.name in s.core.procs
    && var n := s.holder.pc.name;
       s' == s.(core := CheckDone(Put(s.core, n, FailStart(s.core.procs[n])).(hadFailed := true)),
                holder := After(s.holder, false).(outbox := Changed(n, s.core.procs[n], Failed) + [SupervisorError(n)]))
  }

  /** Releasing the operations lock. */
  ghost predicate DoReturn(s: Sys, s': Sys) {
    && Idle(s) && s.holder.pc.Return?
    && var op := s.holder.op;
       s' == s.(holder := Free,
                core := if op.OpTimer? && op.run.name in s.core.procs
                        then Put(s.core, op.run.name, LeaveTimer(s.core.procs[op.run.name], op.run.gen)) else s.core,
                phase := if op.OpInitial? then AtTop
                         else if op.OpStopAll? && op.byRun then Draining(false) else s.phase)
  }

  // ---------- Steps of waiters, of Run and of the environment ----------

  ghost predicate DoWaiterEmit(s: Sys, s': Sys, r: Run) {
    && HasWaiter(s, r) && TheWaiter(s, r).outbox != []
    && var w := TheWaiter(s, r);
       s' == PutWaiter(Emit(s, w.outbox[0]), r, w.(outbox := w.outbox[1..]))
  }

  ghost predicate DoForwardAdd(cfg: Config, s: Sys, s': Sys, r: Run) {
    && HasWaiter(s, r) && (TheWaiter(s, r).phase.Live? || TheWaiter(s, r).phase.Done?)
    && TheWaiter(s, r).lines > 0 && TheWaiter(s, r).inHand.None? && r.name in cfg.retains
    && var w, p := TheWaiter(s, r), AddLog(Own(s, r), cfg.retains[r.name]);
       s' == PutProc(PutWaiter(s, r, w.(lines := w.lines - 1, inHand := Some(p.logged))), r.name, p)
  }

  ghost predicate DoForwardEmit(s: Sys, s': Sys, r: Run) {
    && HasWaiter(s, r) && TheWaiter(s, r).inHand.Some?
    && var w := TheWaiter(s, r);
       s' == PutWaiter(Emit(s, LogLine(r.name, w.inHand.value)), r, w.(inHand := None))
  }

  /** The command has ended and its output has drained. */
  predicate Ended(s: Sys, r: Run) {
    HasWaiter(s, r) && TheWaiter(s, r).phase.Done? && TheWaiter(s, r).lines == 0 && TheWaiter(s, r).inHand.None?
  }

  ghost predicate DoExit(cfg: Config, s: Sys, s': Sys, r: Run) {
    && Ended(s, r) && r.name in cfg.policy && Own(s, r).gen == r.gen
    && var w, p, outcome := TheWaiter(s, r), Own(s, r), TheWaiter(s, r).phase.outcome;
       var restart := ExitRestarts(cfg.policy[r.name], p, s.core.stopping, outcome);
       var failed := s.core.hadFailed || (ExitState(p, outcome).Failed? && !restart) || outcome.supervisionError;
       var core := Put(s.core, r.name, Exit(p, restart, outcome)).(hadFailed := failed);
       s' == PutWaiter(s, r, w.(phase := Publishing(restart, p.finished), outbox := ExitEvents(r.name, p, restart, outcome)))
             .(core := if restart then core else CheckDone(core))
  }

  /** A waiter of an older generation would return without a trace. */
  ghost predicate DoStale(s: Sys, s': Sys, r: Run) {
    Ended(s, r) && Own(s, r).gen != r.gen && s' == DropWaiter(s, r)
  }

  /** The waiter has sent its exit: it closes its channel and is gone, */
  ghost predicate DoClose(s: Sys, s': Sys, r: Run) {
    && HasWaiter(s, r) && TheWaiter(s, r).phase.Publishing? && TheWaiter(s, r).outbox == [] && !TheWaiter(s, r).phase.restart
    && s' == PutProc(DropWaiter(s, r), r.name, CloseFinished(Own(s, r), TheWaiter(s, r).phase.finished))
  }

  /** or stays to wait for its backoff timer. */
  ghost predicate DoReserve(s: Sys, s': Sys, r: Run) {
    && HasWaiter(s, r) && TheWaiter(s, r).phase.Publishing? && TheWaiter(s, r).outbox == [] && TheWaiter(s, r).phase.restart
    && s' == PutProc(PutWaiter(s, r, TheWaiter(s, r).(phase := Reserved)), r.name, CloseFinished(Own(s, r), TheWaiter(s, r).phase.finished))
  }

  ghost predicate DoCancelSeen(s: Sys, s': Sys, r: Run) {
    && HasWaiter(s, r) && TheWaiter(s, r).phase.Reserved? && (r.gen in Own(s, r).cancelled || s.ctxDone)
    && s' == PutProc(DropWaiter(s, r), r.name, LeaveTimer(Own(s, r), r.gen))
  }

  ghost predicate DoWatch(cfg: Config, s: Sys, s': Sys) {
    s.phase.AtTop? && !cfg.keepRunning && s' == s.(phase := Watching(s.core.done))
  }

  /** All waiters have returned. */
  ghost predicate DoAnnounce(s: Sys, s': Sys) {
    && s.phase.Draining? && (forall n :: n in s.waiters ==> s.waiters[n] == map[]) && !(s.holder.Busy? && s.holder.op.OpTimer?)
    && s' == s.(events := s.events + [SupervisorStopped], phase := Announced(s.phase.viaDone))
  }

  ghost predicate DoCloseEvents(s: Sys, s': Sys) {
    s.phase.Announced? && s' == s.(phase := Finished(s.phase.viaDone))
  }

  ghost predicate DoOutput(s: Sys, s': Sys, r: Run) {
    && HasWaiter(s, r) && TheWaiter(s, r).phase.Live?
    && s' == PutWaiter(s, r, TheWaiter(s, r).(lines := TheWaiter(s, r).lines + 1))
  }

  ghost predicate DoProcessExit(s: Sys, s': Sys, r: Run, outcome: Outcome) {
    && HasWaiter(s, r) && TheWaiter(s, r).phase.Live?
    && s' == PutWaiter(s, r, TheWaiter(s, r).(phase := Done(outcome)))
  }

  ghost predicate DoTimerFires(s: Sys, s': Sys, r: Run) {
    && HasWaiter(s, r) && TheWaiter(s, r).phase.Reserved?
    && s' == PutWaiter(s, r, TheWaiter(s, r).(phase := Fired))
  }

  /** Taking the operations lock. */
  ghost predicate CommandNext(cfg: Config, s: Sys, s': Sys, step: Step) {
    match step
    case RunBegin(names) => DoRunBegin(cfg, s, s', names)
    case StartCmd(n) => DoStartCmd(s, s', n)
    case StopCmd(n, order) => DoStopCmd(cfg, s, s', n, order)
    case RestartCmd(n, order) => DoRestartCmd(cfg, s, s', n, order)
    case StopAllCmd(order, byRun) => DoStopAllCmd(cfg, s, s', order, byRun)
    case DoneTake => DoDoneTake(s, s')
    case _ => false
  }

  /** Steps of the lock holder that change no process. */
  ghost predicate MoveNext(cfg: Config, s: Sys, s': Sys, step: Step) {
    match step
    case InitialEndStep => DoInitialEnd(s, s')
    case StopEndStep => DoStopEnd(s, s')
    case StopReturns(ok) => DoStopReturns(s, s', ok)
    case JoinStep => DoJoin(s, s')
    case PassStep(n) => DoPass(s, s', n)
    case RestartContextStep => DoRestartContext(s, s')
    case ResumeReadStep => DoResumeRead(s, s')
    case ResumeStep => DoResume(s, s')
    case ContextStep => DoContext(s, s')
    case RejectStep => DoReject(cfg, s, s')
    case _ => false
  }

  /** Steps in which the lock holder decides about processes, sends an event or leaves. */
  ghost predicate TurnNext(cfg: Config, s: Sys, s': Sys, step: Step) {
    match step
    case HolderEmit => DoHolderEmit(s, s')
    case PickStep => DoPick(cfg, s, s')
    case SkipStep => DoSkip(s, s')
    case MarkStep => DoMark(s, s')
    case TurnStep(n) => DoTurn(s, s', n)
    case AdmitStep => DoAdmit(cfg, s, s')
    case ReturnStep => DoReturn(s, s')
    case _ => false
  }

  /** startProcess and markStartFailed. */
  ghost predicate StartNext(cfg: Config, s: Sys, s': Sys, step: Step) {
    match step
    case WaitStep => DoWait(s, s')
    case RefuseStep => DoRefuse(s, s')
    case LaunchStep(spec) => DoLaunch(s, s', spec)
    case ExecStep(ok) => DoExec(s, s', ok)
    case CommitStep => DoCommit(s, s')
    case SpawnStep => DoSpawn(s, s')
    case FailStep => DoFail(s, s')
    case _ => false
  }

  /** A running command, its log forwarder and its timer. */
  ghost predicate OutputNext(cfg: Config, s: Sys, s': Sys, step: Step) {
    match step
    case WaiterEmit(r) => DoWaiterEmit(s, s', r)
    case ForwardAdd(r) => DoForwardAdd(cfg, s, s', r)
    case ForwardEmit(r) => DoForwardEmit(s, s', r)
    case Output(r) => DoOutput(s, s', r)
    case ProcessExit(r, outcome) => DoProcessExit(s, s', r, outcome)
    case TimerFires(r) => DoTimerFires(s, s', r)
    case _ => false
  }

  /** The end of a run, and of its reservation. */
  ghost predicate EndNext(cfg: Config, s: Sys, s': Sys, step: Step) {
    match step
    case ExitStep(r) => DoExit(cfg, s, s', r)
    case StaleStep(r) => DoStale(s, s', r)
    case CloseStep(r) => DoClose(s, s', r)
    case ReserveStep(r) => DoReserve(s, s', r)
    case CancelSeen(r) => DoCancelSeen(s, s', r)
    case TimerTake(r) => DoTimerTake(s, s', r)
    case TimerLapse(r) => DoTimerLapse(s, s', r)
    case _ => false
  }

  /** Run itself, and cancellation. */
  ghost predicate RunNext(cfg: Config, s: Sys, s': Sys, step: Step) {
    match step
    case Watch => DoWatch(cfg, s, s')
    case Announce => DoAnnounce(s, s')
    case CloseEvents => DoCloseEvents(s, s')
    case ContextCancel => s' == s.(ctxDone := true)
    case _ => false
  }

  ghost predicate Next(cfg: Config, s: Sys, s': Sys, step: Step) {
    || CommandNext(cfg, s, s', step)
    || MoveNext(cfg, s, s', step)
    || TurnNext(cfg, s, s', step)
    || StartNext(cfg, s, s', step)
    || OutputNext(cfg, s, s', step)
    || EndNext(cfg, s, s', step)
    || RunNext(cfg, s, s', step)
  }

  /** A run of the machine. */
  ghost predicate Trace(cfg: Config, trace: seq<Sys>, steps: seq<Step>) {
    && |trace| == |steps| + 1
    && Init(cfg, trace[0])
    && forall i :: 0 <= i < |steps| ==> Next(cfg, trace[i], trace[i + 1], steps[i])
  }
}
