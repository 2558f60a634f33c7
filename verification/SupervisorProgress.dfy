/** No dead ends: whoever holds the operations lock can go on, or waits for a run whose own
    waiter can; a waiter can always go on to the end of its run; and Run gets to its end. */
module SupervisorProgress {
  import opened DependencyGraph
  import opened StopOrder
  import opened Lifecycle
  import opened Options
  import opened SupervisorMachine
  import opened SupervisorUnit
  import opened SupervisorInvariant
  import opened SupervisorEffects
  import opened SupervisorDependencies
  import opened SupervisorStops
  import opened SupervisorEvents
  import opened SupervisorDecisions

  /** The step can be taken. */
  ghost predicate Enabled(cfg: Config, s: Sys, step: Step) {
    exists s' :: Next(cfg, s, s', step)
  }

  lemma EnabledBy(cfg: Config, s: Sys, s': Sys, step: Step)
    requires Next(cfg, s, s', step)
    ensures Enabled(cfg, s, step)
  {
    hide Next;
  }

  // ---------- The lock holder ----------

  lemma EmitEnabled(cfg: Config, s: Sys)
    requires s.holder.Busy? && s.holder.outbox != []
    ensures Enabled(cfg, s, HolderEmit)
  {
    var s' := Emit(s, s.holder.outbox[0]).(holder := s.holder.(outbox := s.holder.outbox[1..]));
    assert TurnNext(cfg, s, s', HolderEmit);
    hide *;
    EnabledBy(cfg, s, s', HolderEmit);
  }

  /** The initial start: the next process is picked, started or passed over, until the end. */
  lemma InitialEnabled(cfg: Config, s: Sys)
    requires Frame(cfg, s) && Idle(s) && s.holder.op.OpInitial?
    ensures s.holder.pc.InitialNext? && s.holder.index < |s.holder.op.names| && !s.ctxDone ==> Enabled(cfg, s, PickStep)
    ensures s.holder.pc.InitialNext? && (s.holder.index == |s.holder.op.names| || s.ctxDone) ==> Enabled(cfg, s, InitialEndStep)
    ensures s.holder.pc.SkipAt? ==> Enabled(cfg, s, SkipStep)
  {
    hide ConfigOk, DoneOk, IsStartOrder, CommandNext, StartNext, OutputNext, EndNext, RunNext;
    var h := s.holder;
    if h.pc.InitialNext? && h.index < |h.op.names| && !s.ctxDone {
      var n := h.op.names[h.index];
      var s' := s.(holder := h.(pc := if DepsReady(cfg, s.core, n) then Begin(n) else SkipAt(n)));
      assert Next(cfg, s, s', PickStep);
    } else if h.pc.InitialNext? {
      var s' := s.(core := if h.index >= |h.op.names| then CheckDone(s.core) else s.core, holder := h.(pc := Return));
      assert Next(cfg, s, s', InitialEndStep);
    } else if h.pc.SkipAt? {
      var n := h.pc.name;
      var s' := s.(core := Put(s.core, n, Skip(s.core.procs[n])).(hadFailed := true),
                   holder := h.(pc := InitialNext, index := h.index + 1, outbox := Changed(n, s.core.procs[n], Skipped) + [ProcessSkipped(n)]));
      assert Next(cfg, s, s', SkipStep);
    }
  }

  lemma MarkEnabled(cfg: Config, s: Sys)
    requires Idle(s) && s.holder.pc.Mark?
    ensures Enabled(cfg, s, MarkStep)
  {
    hide CommandNext, StartNext, OutputNext, EndNext, RunNext, MarkOne, MarkEvents, StopList;
    var order := StopList(s.holder.op);
    var s' := s.(core := MarkStopped(s.core, order), holder := s.holder.(pc := StopNext, index := 0, outbox := MarkEvents(s.core, order)));
    assert Next(cfg, s, s', MarkStep);
  }

  /** The stop loop turns to every process in turn, stops it or passes on, and ends. */
  lemma StopEnabled(cfg: Config, s: Sys)
    requires LoopOk(s) && Idle(s) && s.holder.pc.StopNext?
    ensures s.holder.index < |StopList(s.holder.op)| ==>
              var n := StopList(s.holder.op)[s.holder.index];
              n in s.core.procs && Enabled(cfg, s, if s.core.procs[n].runner.Some? then TurnStep(n) else PassStep(n))
    ensures s.holder.index >= |StopList(s.holder.op)| ==> Enabled(cfg, s, StopEndStep)
  {
    hide CommandNext, StartNext, OutputNext, EndNext, RunNext, AllDone, StopList;
    var h, order := s.holder, StopList(s.holder.op);
    if h.index < |order| {
      var n := order[h.index];
      assert Stopped(s, n);
      var p := s.core.procs[n];
      if p.runner.Some? {
        var s' := s.(core := Put(s.core, n, TurnStopping(p)), holder := h.(pc := StopWait(p.runner.value, p.finished), outbox := Changed(n, p, Stopping)));
        assert Next(cfg, s, s', TurnStep(n));
      } else {
        var s' := s.(holder := h.(index := h.index + 1));
        assert Next(cfg, s, s', PassStep(n));
      }
    } else {
      var s' := s.(core := CheckDone(s.core),
                   holder := if h.op.OpRestart? && !h.failed then h.(pc := ResumeNext, index := |order|) else h.(pc := Return));
      assert Next(cfg, s, s', StopEndStep);
    }
  }

  /** Runner.Stop may fail; it returns once the command has exited; and then the loop goes on as
      soon as the exit has been published. */
  lemma StopWaitEnabled(cfg: Config, s: Sys)
    requires LoopOk(s) && Idle(s) && (s.holder.pc.StopWait? || s.holder.pc.StopJoin?)
    ensures s.holder.index < |StopList(s.holder.op)|
    ensures var n := StopList(s.holder.op)[s.holder.index];
            if s.holder.pc.StopWait? then
              && Enabled(cfg, s, StopReturns(false))
              && (!(HasWaiter(s, Run(n, s.holder.pc.gen)) && TheWaiter(s, Run(n, s.holder.pc.gen)).phase.Live?) ==> Enabled(cfg, s, StopReturns(true)))
            else
              n in s.core.procs && s.core.procs[n].finished == s.holder.pc.finished
              && (s.holder.pc.finished.Some? && s.holder.pc.finished.value in s.core.procs[n].closed ==> Enabled(cfg, s, JoinStep))
  {
    hide CommandNext, TurnNext, StartNext, OutputNext, EndNext, RunNext, StopList, HasWaiter, TheWaiter;
    var h, order := s.holder, StopList(s.holder.op);
    if h.pc.StopWait? {
      var s1 := s.(holder := h.(pc := StopNext, index := h.index + 1, failed := true, outbox := [SupervisorError(order[h.index])]));
      assert Next(cfg, s, s1, StopReturns(false));
      var s2 := s.(holder := h.(pc := StopJoin(h.pc.finished)));
      if !(HasWaiter(s, Run(order[h.index], h.pc.gen)) && TheWaiter(s, Run(order[h.index], h.pc.gen)).phase.Live?) {
        assert Next(cfg, s, s2, StopReturns(true));
      }
    } else if h.pc.finished.Some? && h.pc.finished.value in s.core.procs[order[h.index]].closed {
      var s' := s.(holder := h.(pc := StopNext, index := h.index + 1));
      assert Next(cfg, s, s', JoinStep);
    }
  }

  /** RestartProcess goes through its stages. */
  lemma RestartEnabled(cfg: Config, s: Sys)
    requires Frame(cfg, s) && Idle(s) && s.holder.op.OpRestart?
    ensures s.holder.pc.RestartContext? ==> Enabled(cfg, s, RestartContextStep)
    ensures s.holder.pc.ResumeRead? ==> Enabled(cfg, s, ResumeReadStep)
    ensures s.holder.pc.ResumeNext? ==> Enabled(cfg, s, ResumeStep)
  {
    hide ConfigOk, DoneOk, Covers, CommandNext, TurnNext, StartNext, OutputNext, EndNext, RunNext, ResumeSet;
    var h := s.holder;
    if h.pc.RestartContext? {
      assert Next(cfg, s, s.(holder := if ContextOk(s) then h.(pc := ResumeRead) else h.(pc := Return, failed := true)), RestartContextStep);
    } else if h.pc.ResumeRead? {
      assert Next(cfg, s, s.(holder := h.(pc := Mark, op := h.op.(resume := ResumeSet(s.core, h.op.order, h.op.name)))), ResumeReadStep);
    } else if h.pc.ResumeNext? {
      var s' := s.(holder := if h.index == 0 then h.(pc := Return)
                             else if h.op.order[h.index - 1] in h.op.resume then h.(pc := ManualContext(h.op.order[h.index - 1]), index := h.index - 1)
                             else h.(index := h.index - 1));
      assert Next(cfg, s, s', ResumeStep);
    }
  }

  /** A manual start passes its checks or is refused, and waits for the last exit only. */
  lemma ManualEnabled(cfg: Config, s: Sys)
    requires Frame(cfg, s) && Idle(s)
    ensures s.holder.pc.ManualContext? ==> Enabled(cfg, s, ContextStep)
    ensures s.holder.pc.ManualGate? ==> Enabled(cfg, s, AdmitStep) || Enabled(cfg, s, RejectStep)
    ensures s.holder.pc.ManualWait? ==>
              s.holder.pc.name in s.core.procs
              && (s.holder.pc.finished.None? || s.holder.pc.finished.value in s.core.procs[s.holder.pc.name].closed ==> Enabled(cfg, s, WaitStep))
  {
    hide ConfigOk, DoneOk, OpOk, CommandNext, OutputNext, EndNext, RunNext, Startable, Admit;
    var h := s.holder;
    if h.pc.ManualContext? {
      assert Next(cfg, s, s.(holder := if ContextOk(s) then h.(pc := ManualGate(h.pc.name)) else After(h, false)), ContextStep);
    } else if h.pc.ManualGate? {
      var n := h.pc.name;
      if Startable(cfg, s.core, n) {
        AdmitEnabled(cfg, s, n);
      } else {
        assert Next(cfg, s, s.(holder := After(h, false)), RejectStep);
      }
    } else if h.pc.ManualWait? && (h.pc.finished.None? || h.pc.finished.value in s.core.procs[h.pc.name].closed) {
      assert Next(cfg, s, s.(holder := h.(pc := Begin(h.pc.name))), WaitStep);
    }
  }

  lemma AdmitEnabled(cfg: Config, s: Sys, n: string)
    requires Idle(s) && s.holder.pc == ManualGate(n) && Startable(cfg, s.core, n)
    ensures Enabled(cfg, s, AdmitStep)
  {
    hide CommandNext, MoveNext, StartNext, OutputNext, EndNext, RunNext, DepsReady;
    var s' := s.(core := Put(s.core, n, Admit(s.core.procs[n])), holder := s.holder.(pc := ManualWait(n, s.core.procs[n].finished)));
    assert Next(cfg, s, s', AdmitStep);
  }

  /** startProcess launches, unless the supervisor is going down; the command starts or fails to;
      and either way the operation goes on and returns. */
  lemma BeginEnabled(cfg: Config, s: Sys, n: string)
    requires Idle(s) && s.holder.pc == Begin(n) && n in s.core.procs
    ensures if s.core.stopping || s.ctxDone then Enabled(cfg, s, RefuseStep)
            else Enabled(cfg, s, LaunchStep(true)) && Enabled(cfg, s, LaunchStep(false))
  {
    hide CommandNext, MoveNext, TurnNext, OutputNext, EndNext, RunNext, Launch, Changed;
    if s.core.stopping || s.ctxDone {
      assert Next(cfg, s, s.(holder := s.holder.(pc := Fail(n))), RefuseStep);
    } else {
      LaunchEnabled(cfg, s, n, true);
      LaunchEnabled(cfg, s, n, false);
    }
  }

  lemma ExecEnabled(cfg: Config, s: Sys, n: string)
    requires Idle(s) && s.holder.pc == Exec(n)
    ensures Enabled(cfg, s, ExecStep(true)) && Enabled(cfg, s, ExecStep(false))
  {
    hide CommandNext, MoveNext, TurnNext, OutputNext, EndNext, RunNext, Launch, Changed;
    assert Next(cfg, s, s.(holder := s.holder.(pc := CommitAt(n))), ExecStep(true));
    assert Next(cfg, s, s.(holder := s.holder.(pc := Fail(n))), ExecStep(false));
  }

  lemma LaunchEnabled(cfg: Config, s: Sys, n: string, spec: bool)
    requires Idle(s) && s.holder.pc == Begin(n) && n in s.core.procs && !s.core.stopping && !s.ctxDone
    ensures Enabled(cfg, s, LaunchStep(spec))
  {
    hide CommandNext, MoveNext, TurnNext, OutputNext, EndNext, RunNext, Launch, Changed;
    var s' := s.(core := Put(Busied(s.core), n, Launch(s.core.procs[n], spec)),
                 holder := s.holder.(pc := if spec then Exec(n) else Fail(n), outbox := Changed(n, s.core.procs[n], Starting)));
    assert Next(cfg, s, s', LaunchStep(spec));
  }

  lemma CommitEnabled(cfg: Config, s: Sys, n: string)
    requires Idle(s) && s.holder.pc == CommitAt(n) && n in s.core.procs
    ensures Enabled(cfg, s, CommitStep)
  {
    hide CommandNext, MoveNext, TurnNext, OutputNext, EndNext, RunNext, Commit, FailStart, AllDone, Changed;
    var h := s.holder;
    var s' := s.(core := Put(s.core, n, Commit(s.core.procs[n])),
                 holder := h.(pc := Spawn(n), launched := h.launched + [n], outbox := Changed(n, s.core.procs[n], Running) + [Started(n)]));
    assert Next(cfg, s, s', CommitStep);
  }

  lemma SpawnEnabled(cfg: Config, s: Sys, n: string)
    requires Idle(s) && s.holder.pc == Spawn(n) && n in s.core.procs && n in s.waiters
    ensures Enabled(cfg, s, SpawnStep)
  {
    hide CommandNext, MoveNext, TurnNext, OutputNext, EndNext, RunNext, Commit, FailStart, AllDone, Changed;
    var s' := PutWaiter(s, Run(n, s.core.procs[n].gen), Waiter(Live, 0, None, [])).(holder := After(s.holder, true));
    assert Next(cfg, s, s', SpawnStep);
  }

  lemma FailEnabled(cfg: Config, s: Sys, n: string)
    requires Idle(s) && s.holder.pc == Fail(n) && n in s.core.procs
    ensures Enabled(cfg, s, FailStep)
  {
    hide CommandNext, MoveNext, TurnNext, OutputNext, EndNext, RunNext, Commit, FailStart, AllDone, Changed;
    var s' := s.(core := CheckDone(Put(s.core, n, FailStart(s.core.procs[n])).(hadFailed := true)),
                 holder := After(s.holder, false).(outbox := Changed(n, s.core.procs[n], Failed) + [SupervisorError(n)]));
    assert Next(cfg, s, s', FailStep);
  }

  lemma ReturnEnabled(cfg: Config, s: Sys)
    requires Idle(s) && s.holder.pc.Return?
    ensures Enabled(cfg, s, ReturnStep)
  {
    hide CommandNext, MoveNext, StartNext, OutputNext, EndNext, RunNext, LeaveTimer;
    var op := s.holder.op;
    var s' := s.(holder := Free,
                 core := if op.OpTimer? && op.run.name in s.core.procs
                         then Put(s.core, op.run.name, LeaveTimer(s.core.procs[op.run.name], op.run.gen)) else s.core,
                 phase := if op.OpInitial? then AtTop else if op.OpStopAll? && op.byRun then Draining(false) else s.phase);
    assert Next(cfg, s, s', ReturnStep);
  }

  /** The steps of whoever holds the operations lock. */
  predicate HolderStep(step: Step) {
    || step.HolderEmit? || step.PickStep? || step.InitialEndStep? || step.SkipStep? || step.MarkStep? || step.TurnStep?
    || step.PassStep? || step.StopEndStep? || step.StopReturns? || step.JoinStep? || step.RestartContextStep?
    || step.ResumeReadStep? || step.ResumeStep? || step.ContextStep? || step.AdmitStep? || step.RejectStep? || step.WaitStep?
    || step.RefuseStep? || step.LaunchStep? || step.ExecStep? || step.CommitStep? || step.SpawnStep? || step.FailStep?
    || step.ReturnStep?
  }

  /** The holder waits for the exit of run r to be published. */
  predicate WaitsFor(s: Sys, r: Run) {
    && Idle(s) && r.name in s.core.procs && r.gen !in s.core.procs[r.name].closed
    && (|| s.holder.pc == ManualWait(r.name, Some(r.gen))
        || (s.holder.pc == StopJoin(Some(r.gen)) && s.holder.index < |StopList(s.holder.op)| && StopList(s.holder.op)[s.holder.index] == r.name))
  }

  ghost predicate HolderGoes(cfg: Config, s: Sys) {
    exists step :: HolderStep(step) && Enabled(cfg, s, step)
  }

  lemma GoesBy(cfg: Config, s: Sys, step: Step)
    requires HolderStep(step) && Enabled(cfg, s, step)
    ensures HolderGoes(cfg, s)
  {
    hide Enabled;
  }

  lemma StartingGoes(cfg: Config, s: Sys)
    requires Frame(cfg, s) && Idle(s) && Launchable(s.holder.pc)
    ensures HolderGoes(cfg, s)
  {
    hide Enabled, HolderGoes, ConfigOk, DoneOk, OpOk;
    var n := PcName(s.holder.pc).value;
    match s.holder.pc
    case Begin(_) =>
      BeginEnabled(cfg, s, n);
      GoesBy(cfg, s, if s.core.stopping || s.ctxDone then RefuseStep else LaunchStep(true));
    case Exec(_) => ExecEnabled(cfg, s, n); GoesBy(cfg, s, ExecStep(true));
    case CommitAt(_) => CommitEnabled(cfg, s, n); GoesBy(cfg, s, CommitStep);
    case Spawn(_) => SpawnEnabled(cfg, s, n); GoesBy(cfg, s, SpawnStep);
    case Fail(_) => FailEnabled(cfg, s, n); GoesBy(cfg, s, FailStep);
  }

  // The stop loop waits for runs that have a channel.

  predicate Joins(h: Holder) {
    h.Busy? ==> (h.pc.StopWait? ==> h.pc.finished.Some?) && (h.pc.StopJoin? ==> h.pc.finished.Some?)
  }

  lemma TurnJoins(cfg: Config, s: Sys, s': Sys, n: string)
    requires Inv(cfg, s) && DoTurn(s, s', n)
    ensures Joins(s'.holder)
  {
    hide Frame;
    KeysHere(cfg, s);
    assert UnitOk(ViewOf(s, n));
  }

  lemma TurnsJoin(cfg: Config, s: Sys, s': Sys, step: Step)
    requires TurnNext(cfg, s, s', step) && Joins(s.holder) && !step.TurnStep?
    ensures Joins(s'.holder)
  {
    hide MarkOne, MarkEvents, Admit, Skip, DoTurn, LeaveTimer, DepsReady, Startable, Changed, MarkStopped;
  }

  lemma MovesJoin(cfg: Config, s: Sys, s': Sys, step: Step)
    requires MoveNext(cfg, s, s', step) && Joins(s.holder)
    ensures Joins(s'.holder)
  {
    hide AllDone, Startable, HasWaiter, ResumeSet;
  }

  lemma StartsJoin(cfg: Config, s: Sys, s': Sys, step: Step)
    requires StartNext(cfg, s, s', step)
    ensures Joins(s'.holder)
  {
    hide AllDone, Launch, FailStart, Commit, Changed;
  }

  lemma CommandsJoin(cfg: Config, s: Sys, s': Sys, step: Step)
    requires CommandNext(cfg, s, s', step) && Joins(s.holder)
    ensures Joins(s'.holder)
  {
    hide IsStartOrder, IsFullStopOrder, IsStopOrder;
  }

  lemma JoinsKeep(cfg: Config, s: Sys, s': Sys, step: Step)
    requires Inv(cfg, s) && Next(cfg, s, s', step) && Joins(s.holder)
    ensures Joins(s'.holder)
  {
    hide Inv, Joins, CommandNext, MoveNext, TurnNext, StartNext, OutputNext, EndNext, RunNext;
    if CommandNext(cfg, s, s', step) { CommandsJoin(cfg, s, s', step); }
    else if MoveNext(cfg, s, s', step) { MovesJoin(cfg, s, s', step); }
    else if TurnNext(cfg, s, s', step) {
      if step.TurnStep? { TurnOnly(cfg, s, s', step.name); TurnJoins(cfg, s, s', step.name); } else { TurnsJoin(cfg, s, s', step); }
    }
    else if StartNext(cfg, s, s', step) { StartsJoin(cfg, s, s', step); }
    else if OutputNext(cfg, s, s', step) { OutputFrame(cfg, s, s', step); }
    else if EndNext(cfg, s, s', step) { EndsJoin(cfg, s, s', step); }
    else { RunFrame(cfg, s, s', step); }
  }


  lemma EndsJoin(cfg: Config, s: Sys, s': Sys, step: Step)
    requires EndNext(cfg, s, s', step) && Joins(s.holder)
    ensures Joins(s'.holder)
  {
    hide EndNext;
    EndFrame(cfg, s, s', step);
  }

  lemma TurnOnly(cfg: Config, s: Sys, s': Sys, n: string)
    requires TurnNext(cfg, s, s', TurnStep(n))
    ensures DoTurn(s, s', n)
  {
    hide DoTurn;
  }

  lemma {:induction false} RunJoins(cfg: Config, trace: seq<Sys>, steps: seq<Step>, i: nat)
    requires Trace(cfg, trace, steps) && i < |trace|
    ensures Joins(trace[i].holder)
  {
    hide Next, Inv;
    if i > 0 {
      RunJoins(cfg, trace, steps, i - 1);
      StepOf(cfg, trace, steps, i - 1);
      assert Next(cfg, trace[i - 1], trace[i - 1 + 1], steps[i - 1]);
      JoinsKeep(cfg, trace[i - 1], trace[i], steps[i - 1]);
    }
  }

  lemma StoppingGoes(cfg: Config, s: Sys)
    requires LoopOk(s) && Joins(s.holder) && Idle(s) && (s.holder.pc.Mark? || InStop(s.holder.pc))
    ensures HolderGoes(cfg, s) || exists r :: WaitsFor(s, r)
  {
    hide Enabled, HolderGoes, LoopOk;
    match s.holder.pc
    case Mark => MarkEnabled(cfg, s); GoesBy(cfg, s, MarkStep);
    case StopNext =>
      StopEnabled(cfg, s);
      if s.holder.index < |StopList(s.holder.op)| {
        var n := StopList(s.holder.op)[s.holder.index];
        GoesBy(cfg, s, if s.core.procs[n].runner.Some? then TurnStep(n) else PassStep(n));
      } else { GoesBy(cfg, s, StopEndStep); }
    case StopWait(_, _) => StopWaitEnabled(cfg, s); GoesBy(cfg, s, StopReturns(false));
    case StopJoin(f) =>
      StopWaitEnabled(cfg, s);
      var n := StopList(s.holder.op)[s.holder.index];
      if f.value in s.core.procs[n].closed { GoesBy(cfg, s, JoinStep); } else { assert WaitsFor(s, Run(n, f.value)); }
  }

  lemma InitialGoes(cfg: Config, s: Sys)
    requires Frame(cfg, s) && Idle(s) && s.holder.op.OpInitial? && (s.holder.pc.InitialNext? || s.holder.pc.SkipAt?)
    ensures HolderGoes(cfg, s)
  {
    hide Enabled, HolderGoes, Frame;
    InitialEnabled(cfg, s);
    InitialIndex(cfg, s);
    if s.holder.pc.SkipAt? { GoesBy(cfg, s, SkipStep); }
    else if s.holder.index < |s.holder.op.names| && !s.ctxDone { GoesBy(cfg, s, PickStep); }
    else { GoesBy(cfg, s, InitialEndStep); }
  }

  lemma ManualGoes(cfg: Config, s: Sys)
    requires Frame(cfg, s) && Idle(s) && (s.holder.pc.ManualContext? || s.holder.pc.ManualGate? || s.holder.pc.ManualWait?)
    ensures HolderGoes(cfg, s) || exists r :: WaitsFor(s, r)
  {
    hide Enabled, HolderGoes, Frame;
    ManualEnabled(cfg, s);
    match s.holder.pc
    case ManualContext(_) => GoesBy(cfg, s, ContextStep);
    case ManualGate(_) => GoesBy(cfg, s, if Enabled(cfg, s, AdmitStep) then AdmitStep else RejectStep);
    case ManualWait(n, f) =>
      if f.None? || f.value in s.core.procs[n].closed { GoesBy(cfg, s, WaitStep); } else { assert WaitsFor(s, Run(n, f.value)); }
  }

  lemma RestartGoes(cfg: Config, s: Sys)
    requires Frame(cfg, s) && Idle(s) && s.holder.op.OpRestart? && (s.holder.pc.RestartContext? || s.holder.pc.ResumeRead? || s.holder.pc.ResumeNext?)
    ensures HolderGoes(cfg, s)
  {
    hide Enabled, HolderGoes, Frame;
    RestartEnabled(cfg, s);
    GoesBy(cfg, s, if s.holder.pc.RestartContext? then RestartContextStep else if s.holder.pc.ResumeRead? then ResumeReadStep else ResumeStep);
  }

  /** Where the lock holder can be. */
  lemma HolderPlaces(cfg: Config, s: Sys)
    requires Inv(cfg, s) && s.holder.Busy?
    ensures var pc, op := s.holder.pc, s.holder.op;
            || pc.Return? || pc.Mark? || InStop(pc) || Launchable(pc)
            || pc.ManualContext? || pc.ManualGate? || pc.ManualWait?
            || (op.OpInitial? && (pc.InitialNext? || pc.SkipAt?))
            || (op.OpRestart? && (pc.RestartContext? || pc.ResumeRead? || pc.ResumeNext?))
  {
    hide Units, ConfigOk, DoneOk, Covers, IsStartOrder;
  }

  /** Whoever holds the operations lock can take a step, or waits for a run's exit. */
  lemma HolderGoesOn(cfg: Config, s: Sys)
    requires Inv(cfg, s) && LoopOk(s) && Joins(s.holder) && s.holder.Busy?
    ensures HolderGoes(cfg, s) || exists r :: WaitsFor(s, r)
  {
    hide Inv, LoopOk, Joins, Enabled, HolderGoes, WaitsFor, Launchable, InStop;
    InvFrame(cfg, s);
    HolderPlaces(cfg, s);
    if s.holder.outbox != [] { EmitEnabled(cfg, s); GoesBy(cfg, s, HolderEmit); }
    else if s.holder.pc.Return? { ReturnEnabled(cfg, s); GoesBy(cfg, s, ReturnStep); }
    else if s.holder.pc.Mark? || InStop(s.holder.pc) { StoppingGoes(cfg, s); }
    else if Launchable(s.holder.pc) { StartingGoes(cfg, s); }
    else if s.holder.op.OpInitial? && (s.holder.pc.InitialNext? || s.holder.pc.SkipAt?) { InitialGoes(cfg, s); }
    else if s.holder.pc.ManualContext? || s.holder.pc.ManualGate? || s.holder.pc.ManualWait? { ManualGoes(cfg, s); }
    else { RestartGoes(cfg, s); }
  }

  // ---------- Waiters ----------

  /** A run whose exit the lock holder waits for has a waiter that has not published it yet. */
  lemma WaitsForWaiter(cfg: Config, s: Sys, r: Run)
    requires Inv(cfg, s) && LoopOk(s) && WaitsFor(s, r)
    ensures HasWaiter(s, r) && (Watched(TheWaiter(s, r).phase) || TheWaiter(s, r).phase.Publishing?)
  {
    hide Inv, Frame, LoopOk, UnitOk;
    KeysHere(cfg, s);
    UnitOf(cfg, s, r.name);
    AwaitedFinished(cfg, s, r);
    OpenChannel(ViewOf(s, r.name), r.gen);
  }

  lemma AwaitedFinished(cfg: Config, s: Sys, r: Run)
    requires Inv(cfg, s) && LoopOk(s) && WaitsFor(s, r) && r.name in s.waiters && UnitOk(ViewOf(s, r.name))
    ensures s.core.procs[r.name].finished == Some(r.gen) && !Launching(At(s.holder, r.name)) && !At(s.holder, r.name).Fail?
  {
    hide Frame, Units, RunnerOk, RestOk, WaiterOk, NumbersOk;
  }

  lemma OpenChannel(v: View, g: nat)
    requires UnitOk(v) && v.p.finished == Some(g) && g !in v.p.closed && !Launching(v.at) && !v.at.Fail?
    ensures g in v.ws && (Watched(v.ws[g].phase) || v.ws[g].phase.Publishing?)
  {
  }

  /** A waiter that is not waiting for its command or its timer can take a step without the
      operations lock, up to the publication of the exit; and a command may print and end. */
  lemma WaiterGoesOn(cfg: Config, s: Sys, r: Run)
    requires Inv(cfg, s) && HasWaiter(s, r)
    ensures var w := TheWaiter(s, r);
            && (w.inHand.Some? ==> Enabled(cfg, s, ForwardEmit(r)))
            && (Watched(w.phase) && w.inHand.None? && w.lines > 0 ==> Enabled(cfg, s, ForwardAdd(r)))
            && match w.phase
               case Live => Enabled(cfg, s, Output(r)) && forall outcome :: Enabled(cfg, s, ProcessExit(r, outcome))
               case Done(_) => w.inHand.None? && w.lines == 0 ==> Enabled(cfg, s, ExitStep(r))
               case Publishing(restart, _) =>
                 if w.outbox != [] then Enabled(cfg, s, WaiterEmit(r))
                 else if restart then Enabled(cfg, s, ReserveStep(r))
                 else Enabled(cfg, s, CloseStep(r))
               case Reserved =>
                 && Enabled(cfg, s, TimerFires(r))
                 && (r.gen in Own(s, r).cancelled || s.ctxDone ==> Enabled(cfg, s, CancelSeen(r)))
               case Fired =>
                 s.holder.Free? ==>
                   if r.gen in Own(s, r).cancelled || s.core.stopping || s.ctxDone then Enabled(cfg, s, TimerLapse(r))
                   else Enabled(cfg, s, TimerTake(r))
  {
    hide Inv, Enabled;
    ForwardEnabled(cfg, s, r);
    match TheWaiter(s, r).phase
    case Live =>
      OutputEnabled(cfg, s, r);
      forall outcome ensures Enabled(cfg, s, ProcessExit(r, outcome)) { ExitsEnabled(cfg, s, r, outcome); }
    case Done(_) => if TheWaiter(s, r).inHand.None? && TheWaiter(s, r).lines == 0 { ExitEnabled(cfg, s, r); }
    case Publishing(_, _) => PublishEnabled(cfg, s, r);
    case Reserved => ReservedEnabled(cfg, s, r);
    case Fired => if s.holder.Free? { FiredEnabled(cfg, s, r); }
  }

  lemma OutputEnabled(cfg: Config, s: Sys, r: Run)
    requires HasWaiter(s, r) && TheWaiter(s, r).phase.Live?
    ensures Enabled(cfg, s, Output(r))
  {
    hide CommandNext, MoveNext, TurnNext, StartNext, EndNext, RunNext;
    assert Next(cfg, s, PutWaiter(s, r, TheWaiter(s, r).(lines := TheWaiter(s, r).lines + 1)), Output(r));
  }

  lemma ExitsEnabled(cfg: Config, s: Sys, r: Run, outcome: Outcome)
    requires HasWaiter(s, r) && TheWaiter(s, r).phase.Live?
    ensures Enabled(cfg, s, ProcessExit(r, outcome))
  {
    hide CommandNext, MoveNext, TurnNext, StartNext, EndNext, RunNext;
    assert Next(cfg, s, PutWaiter(s, r, TheWaiter(s, r).(phase := Done(outcome))), ProcessExit(r, outcome));
  }

  lemma ForwardEnabled(cfg: Config, s: Sys, r: Run)
    requires Inv(cfg, s) && HasWaiter(s, r)
    ensures var w := TheWaiter(s, r);
            && (w.inHand.Some? ==> Enabled(cfg, s, ForwardEmit(r)))
            && (Watched(w.phase) && w.inHand.None? && w.lines > 0 ==> Enabled(cfg, s, ForwardAdd(r)))
  {
    hide Inv, CommandNext, MoveNext, TurnNext, StartNext, EndNext, RunNext, AddLog, Emit;
    ConfigHere(cfg, s);
    var w := TheWaiter(s, r);
    if w.inHand.Some? {
      EmitKeeps(s, LogLine(r.name, w.inHand.value));
      var s' := PutWaiter(Emit(s, LogLine(r.name, w.inHand.value)), r, w.(inHand := None));
      assert OutputNext(cfg, s, s', ForwardEmit(r));
      EnabledBy(cfg, s, s', ForwardEmit(r));
    } else if Watched(w.phase) && w.lines > 0 {
      var p := AddLog(Own(s, r), cfg.retains[r.name]);
      var s' := PutProc(PutWaiter(s, r, w.(lines := w.lines - 1, inHand := Some(p.logged))), r.name, p);
      assert OutputNext(cfg, s, s', ForwardAdd(r));
      EnabledBy(cfg, s, s', ForwardAdd(r));
    }
  }

  lemma EmitKeeps(s: Sys, e: Event)
    ensures Emit(s, e).waiters == s.waiters && Emit(s, e).core == s.core
  {
  }

  lemma ConfigHere(cfg: Config, s: Sys)
    requires Inv(cfg, s)
    ensures cfg.policy.Keys == cfg.retains.Keys == cfg.deps.Keys == s.core.procs.Keys == s.waiters.Keys
  {
    hide Units, DoneOk, OpOk, Valid;
  }

  lemma ExitEnabled(cfg: Config, s: Sys, r: Run)
    requires Inv(cfg, s) && HasWaiter(s, r) && TheWaiter(s, r).phase.Done?
    requires TheWaiter(s, r).lines == 0 && TheWaiter(s, r).inHand.None?
    ensures Enabled(cfg, s, ExitStep(r))
  {
    hide Inv, CommandNext, MoveNext, TurnNext, StartNext, OutputNext, RunNext, ExitRestarts, ExitEvents, Exit, ExitState, AllDone;
    ConfigHere(cfg, s);
    ExitingFacts(cfg, s, r);
    var w, p, outcome := TheWaiter(s, r), Own(s, r), TheWaiter(s, r).phase.outcome;
    var restart := ExitRestarts(cfg.policy[r.name], p, s.core.stopping, outcome);
    var failed := s.core.hadFailed || (ExitState(p, outcome).Failed? && !restart) || outcome.supervisionError;
    var core := Put(s.core, r.name, Exit(p, restart, outcome)).(hadFailed := failed);
    var s' := PutWaiter(s, r, w.(phase := Publishing(restart, p.finished), outbox := ExitEvents(r.name, p, restart, outcome)))
              .(core := if restart then core else CheckDone(core));
    assert EndNext(cfg, s, s', ExitStep(r));
    EnabledBy(cfg, s, s', ExitStep(r));
  }

  lemma PublishEnabled(cfg: Config, s: Sys, r: Run)
    requires HasWaiter(s, r) && TheWaiter(s, r).phase.Publishing?
    ensures var w := TheWaiter(s, r);
            if w.outbox != [] then Enabled(cfg, s, WaiterEmit(r))
            else if w.phase.restart then Enabled(cfg, s, ReserveStep(r))
            else Enabled(cfg, s, CloseStep(r))
  {
    hide CommandNext, MoveNext, TurnNext, StartNext, OutputNext, RunNext, CloseFinished;
    var w := TheWaiter(s, r);
    if w.outbox != [] {
      WaiterEmitEnabled(cfg, s, r);
    } else {
      var p := CloseFinished(Own(s, r), w.phase.finished);
      if w.phase.restart {
        var s' := PutProc(PutWaiter(s, r, w.(phase := Reserved)), r.name, p);
        assert EndNext(cfg, s, s', ReserveStep(r));
        EnabledBy(cfg, s, s', ReserveStep(r));
      } else {
        var s' := PutProc(DropWaiter(s, r), r.name, p);
        assert EndNext(cfg, s, s', CloseStep(r));
        EnabledBy(cfg, s, s', CloseStep(r));
      }
    }
  }

  lemma WaiterEmitEnabled(cfg: Config, s: Sys, r: Run)
    requires HasWaiter(s, r) && TheWaiter(s, r).outbox != []
    ensures Enabled(cfg, s, WaiterEmit(r))
  {
    hide CommandNext, MoveNext, TurnNext, StartNext, EndNext, RunNext, Emit;
    var w := TheWaiter(s, r);
    EmitKeeps(s, w.outbox[0]);
    var s' := PutWaiter(Emit(s, w.outbox[0]), r, w.(outbox := w.outbox[1..]));
    assert OutputNext(cfg, s, s', WaiterEmit(r));
    EnabledBy(cfg, s, s', WaiterEmit(r));
  }

  lemma ReservedEnabled(cfg: Config, s: Sys, r: Run)
    requires HasWaiter(s, r) && TheWaiter(s, r).phase.Reserved?
    ensures Enabled(cfg, s, TimerFires(r))
    ensures r.gen in Own(s, r).cancelled || s.ctxDone ==> Enabled(cfg, s, CancelSeen(r))
  {
    hide CommandNext, MoveNext, TurnNext, StartNext, RunNext, LeaveTimer;
    var s1 := PutWaiter(s, r, TheWaiter(s, r).(phase := Fired));
    assert OutputNext(cfg, s, s1, TimerFires(r));
    EnabledBy(cfg, s, s1, TimerFires(r));
    if r.gen in Own(s, r).cancelled || s.ctxDone {
      var s2 := PutProc(DropWaiter(s, r), r.name, LeaveTimer(Own(s, r), r.gen));
      assert EndNext(cfg, s, s2, CancelSeen(r));
      EnabledBy(cfg, s, s2, CancelSeen(r));
    }
  }

  lemma FiredEnabled(cfg: Config, s: Sys, r: Run)
    requires Inv(cfg, s) && HasWaiter(s, r) && TheWaiter(s, r).phase.Fired? && s.holder.Free?
    ensures if r.gen in Own(s, r).cancelled || s.core.stopping || s.ctxDone then Enabled(cfg, s, TimerLapse(r))
            else Enabled(cfg, s, TimerTake(r))
  {
    hide Inv, CommandNext, MoveNext, TurnNext, StartNext, OutputNext, RunNext, LeaveTimer;
    FiredStands(cfg, s, r);
    if r.gen in Own(s, r).cancelled || s.core.stopping || s.ctxDone {
      var s' := PutProc(DropWaiter(s, r), r.name, LeaveTimer(Own(s, r), r.gen));
      assert EndNext(cfg, s, s', TimerLapse(r));
      EnabledBy(cfg, s, s', TimerLapse(r));
    } else {
      var s' := DropWaiter(s, r).(holder := Take(OpTimer(r), Begin(r.name)));
      assert EndNext(cfg, s, s', TimerTake(r));
      EnabledBy(cfg, s, s', TimerTake(r));
    }
  }

  // ---------- Run ----------

  /** Run goes on: it begins once, watches completion unless it is to keep running, stops
      everything after cancellation, leaves through a closed completion channel, and ends once
      every waiter has returned. */
  lemma RunGoesOn(cfg: Config, s: Sys, order: seq<string>)
    ensures s.phase.NotCalled? && s.holder.Free? && IsStartOrder(cfg, order) ==> Enabled(cfg, s, RunBegin(order))
    ensures s.phase.AtTop? && !cfg.keepRunning ==> Enabled(cfg, s, Watch)
    ensures (s.phase.AtTop? || s.phase.Watching?) && s.ctxDone && s.holder.Free? && IsFullStopOrder(cfg, order) ==>
              Enabled(cfg, s, StopAllCmd(order, true))
    ensures s.phase.Watching? && s.phase.done in s.core.closedDone && s.holder.Free? ==> Enabled(cfg, s, DoneTake)
    ensures s.phase.Draining? && (forall n :: n in s.waiters ==> s.waiters[n] == map[]) && !(s.holder.Busy? && s.holder.op.OpTimer?) ==>
              Enabled(cfg, s, Announce)
    ensures s.phase.Announced? ==> Enabled(cfg, s, CloseEvents)
    ensures Enabled(cfg, s, ContextCancel)
  {
    hide MoveNext, TurnNext, StartNext, OutputNext, EndNext, IsStartOrder, IsFullStopOrder;
    assert Next(cfg, s, s.(ctxDone := true), ContextCancel);
    if s.phase.NotCalled? && s.holder.Free? && IsStartOrder(cfg, order) {
      assert Next(cfg, s, s.(phase := StartingUp, holder := Take(OpInitial(order), InitialNext)), RunBegin(order));
    }
    if s.phase.AtTop? && !cfg.keepRunning { assert Next(cfg, s, s.(phase := Watching(s.core.done)), Watch); }
    if (s.phase.AtTop? || s.phase.Watching?) && s.ctxDone && s.holder.Free? && IsFullStopOrder(cfg, order) {
      var s' := s.(holder := Take(OpStopAll(order, true), Mark), core := s.core.(stopping := true), phase := StoppingAll);
      assert Next(cfg, s, s', StopAllCmd(order, true));
    }
    if s.phase.Watching? && s.phase.done in s.core.closedDone && s.holder.Free? {
      var s' := if s.core.idle then s.(core := s.core.(stopping := true), phase := Draining(true)) else s.(phase := AtTop);
      assert Next(cfg, s, s', DoneTake);
    }
    if s.phase.Draining? && (forall n :: n in s.waiters ==> s.waiters[n] == map[]) && !(s.holder.Busy? && s.holder.op.OpTimer?) {
      assert Next(cfg, s, s.(events := s.events + [SupervisorStopped], phase := Announced(s.phase.viaDone)), Announce);
    }
    if s.phase.Announced? { assert Next(cfg, s, s.(phase := Finished(s.phase.viaDone)), CloseEvents); }
  }

  /** A manual command is taken up whenever the lock is free. */
  lemma CommandsGoOn(cfg: Config, s: Sys, n: string, order: seq<string>)
    requires s.holder.Free? && n in cfg.deps
    ensures Enabled(cfg, s, StartCmd(n))
    ensures IsStopOrder(cfg.deps, n, order) ==> Enabled(cfg, s, StopCmd(n, order)) && Enabled(cfg, s, RestartCmd(n, order))
    ensures IsFullStopOrder(cfg, order) ==> Enabled(cfg, s, StopAllCmd(order, false))
  {
    hide MoveNext, TurnNext, StartNext, OutputNext, EndNext, RunNext, IsStopOrder, IsFullStopOrder;
    assert Next(cfg, s, s.(holder := Take(OpStart(n), ManualContext(n))), StartCmd(n));
    if IsStopOrder(cfg.deps, n, order) {
      assert Next(cfg, s, s.(holder := Take(OpStop(order), Mark), earlyStop := s.earlyStop || !Began(s)), StopCmd(n, order));
      assert Next(cfg, s, s.(holder := Take(OpRestart(n, order, {}), RestartContext)), RestartCmd(n, order));
    }
    if IsFullStopOrder(cfg, order) {
      var s' := s.(holder := Take(OpStopAll(order, false), Mark), core := s.core.(stopping := true), earlyStop := s.earlyStop || !Began(s));
      assert Next(cfg, s, s', StopAllCmd(order, false));
    }
  }

  /** No deadlock: at every point of every run the holder of the operations lock can take a step,
      or it waits for a run whose waiter needs no lock to publish its exit. */
  lemma NoDeadlock(cfg: Config, trace: seq<Sys>, steps: seq<Step>, i: nat)
    requires Trace(cfg, trace, steps) && i < |trace| && trace[i].holder.Busy?
    ensures || HolderGoes(cfg, trace[i])
            || exists r :: WaitsFor(trace[i], r) && HasWaiter(trace[i], r)
                           && (Watched(TheWaiter(trace[i], r).phase) || TheWaiter(trace[i], r).phase.Publishing?)
  {
    hide Next, Inv, Init, LoopOk, Joins, HolderGoes, WaitsFor;
    RunKeeps(cfg, trace, steps, i);
    RunKeepsLoop(cfg, trace, steps, i);
    RunJoins(cfg, trace, steps, i);
    HolderGoesOn(cfg, trace[i]);
    if !HolderGoes(cfg, trace[i]) {
      var r :| WaitsFor(trace[i], r);
      WaitsForWaiter(cfg, trace[i], r);
    }
  }
}
