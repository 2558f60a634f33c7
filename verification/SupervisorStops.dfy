/** A manual stop sticks: when it returns without an error, everything it covers is down
    and stays down until a start or restart that covers it; a restart reserved before the
    stop never launches anything. */
module SupervisorStops {
  import opened DependencyGraph
  import opened StopOrder
  import opened Lifecycle
  import opened Options
  import opened SupervisorMachine
  import opened SupervisorUnit
  import opened SupervisorInvariant
  import opened SupervisorEffects
  import opened SupervisorDependencies

  // ---------- A process that is down ----------

  predicate Down(p: Proc) {
    p.runner.None? && Terminal(p.state) && !p.restarting && p.restartCancel.None?
  }

  predicate Launches(s: Sys, step: Step, n: string) {
    step.LaunchStep? && At(s.holder, n).Begin?
  }

  lemma DownAt(v: View)
    requires UnitOk(v) && Down(v.p)
    ensures !Launching(v.at) && (v.at.Begin? ==> v.timer.None?)
  {
  }

  lemma DownRecord(cfg: Config, s: Sys, step: Step, n: string)
    requires n in s.core.procs && Down(s.core.procs[n])
    requires !Launches(s, step, n) && !Launching(At(s.holder, n))
    requires step.ExitStep? && HasWaiter(s, step.run) && TheWaiter(s, step.run).phase.Done? ==> Own(s, step.run).runner.Some?
    ensures Down(RecordAfter(cfg, s, step, n))
  {
    hide ExitState, ExitRestarts;
  }

  /** A process that is down stays down unless the lock holder launches it, */
  lemma DownKeeps(cfg: Config, s: Sys, s': Sys, step: Step, n: string)
    requires Inv(cfg, s) && Next(cfg, s, s', step)
    requires n in s.core.procs && Down(s.core.procs[n]) && !Launches(s, step, n)
    ensures n in s'.core.procs && Down(s'.core.procs[n])
  {
    hide Next, Frame, UnitOk, RecordAfter, WaitersAfter, Approached, Down, Launches, At, TimerOf, Ahead;
    Effects(cfg, s, s', step, n);
    DownAt(ViewOf(s, n));
    if step.ExitStep? && HasWaiter(s, step.run) && TheWaiter(s, step.run).phase.Done? {
      ExitingRun(cfg, s, step.run);
    }
    DownRecord(cfg, s, step, n);
  }

  /** and no backoff timer does that. */
  lemma DownLaunchedByHand(cfg: Config, s: Sys, n: string)
    requires Inv(cfg, s) && n in s.core.procs && Down(s.core.procs[n])
    requires s.holder.Busy? && s.holder.pc == Begin(n)
    ensures s.holder.op.OpInitial? || s.holder.op == OpStart(n) || (s.holder.op.OpRestart? && n in s.holder.op.order)
  {
    hide UnitOk, ConfigOk, DoneOk, Covers, IsStartOrder;
    DownAt(ViewOf(s, n));
  }

  // ---------- Reservations ----------

  /** The waiter of a run is gone for good. */
  ghost predicate Spent(s: Sys, r: Run) {
    && r.name in s.core.procs && r.name in s.waiters
    && r.gen !in s.waiters[r.name] && r.gen <= s.core.procs[r.name].gen
    && (r.gen == s.core.procs[r.name].gen ==> !Launching(At(s.holder, r.name)))
  }

  lemma TakeSpends(cfg: Config, s: Sys, s': Sys, r: Run)
    requires Inv(cfg, s) && DoTimerTake(s, s', r)
    ensures Spent(s', r)
  {
    hide UnitOk, TimerValid;
    TakenRun(ViewOf(s, r.name), r.gen);
  }

  lemma TakenRun(v: View, k: nat)
    requires UnitOk(v) && k in v.ws
    ensures k <= v.p.gen
  {
    assert WaiterOk(v.p, k, v.ws[k]);
  }

  lemma GenRecord(cfg: Config, s: Sys, step: Step, n: string)
    requires n in s.core.procs
    ensures RecordAfter(cfg, s, step, n).gen == if Launches(s, step, n) then s.core.procs[n].gen + 1 else s.core.procs[n].gen
  {
    hide ExitState, ExitRestarts, HasWaiter, TheWaiter;
  }

  lemma WaiterKeysAfter(cfg: Config, s: Sys, step: Step, n: string, k: nat)
    requires n in s.core.procs && n in s.waiters && k in WaitersAfter(cfg, s, step, n)
    ensures k in s.waiters[n] || (At(s.holder, n).Spawn? && k == s.core.procs[n].gen)
  {
    hide WaiterAfter;
  }

  lemma SpentPlace(cfg: Config, s: Sys, s': Sys, step: Step, n: string)
    requires Approached(cfg, s, s', step, n) && !Launching(At(s.holder, n)) && !Launches(s, step, n)
    ensures !Launching(At(s'.holder, n))
  {
    hide At, Startable, DepsReady, TimerValid;
  }

  lemma SpentKeeps(cfg: Config, s: Sys, s': Sys, step: Step, r: Run)
    requires Inv(cfg, s) && Next(cfg, s, s', step) && Spent(s, r)
    ensures Spent(s', r)
  {
    hide Inv, Next, RecordAfter, WaitersAfter, Approached, At, Launches;
    Effects(cfg, s, s', step, r.name);
    GenRecord(cfg, s, step, r.name);
    if r.gen in s'.waiters[r.name] { WaiterKeysAfter(cfg, s, step, r.name, r.gen); }
    if r.gen == s'.core.procs[r.name].gen { SpentPlace(cfg, s, s', step, r.name); }
  }

  /** A waiter that may still end in an automatic restart. */
  predicate MayRestart(w: Waiter) {
    w.phase.Reserved? || w.phase.Fired? || (w.phase.Publishing? && w.phase.restart)
  }

  /** Once a stop is requested, every reservation made before is cancelled, */
  lemma StopCancels(cfg: Config, s: Sys, r: Run)
    requires Inv(cfg, s) && HasWaiter(s, r) && MayRestart(TheWaiter(s, r)) && Own(s, r).stopRequested
    ensures r.gen in Own(s, r).cancelled
  {
    hide UnitOk;
    CancelledReservation(ViewOf(s, r.name), r.gen);
  }

  lemma CancelledReservation(v: View, k: nat)
    requires UnitOk(v) && k in v.ws && MayRestart(v.ws[k]) && v.p.stopRequested
    ensures k in v.p.cancelled
  {
    assert WaiterOk(v.p, k, v.ws[k]);
  }

  lemma SectionsCancel(p: Proc)
    ensures p.cancelled <= MarkOne(p).cancelled && p.cancelled <= Admit(p).cancelled
    ensures forall spec :: p.cancelled <= Launch(p, spec).cancelled
    ensures forall k :: p.cancelled <= LeaveTimer(p, k).cancelled
  {
  }

  lemma OtherSectionsCancel(p: Proc)
    ensures forall f :: CloseFinished(p, f).cancelled == p.cancelled
    ensures forall restart, outcome :: Exit(p, restart, outcome).cancelled == p.cancelled
    ensures FailStart(p).cancelled == p.cancelled
  {
  }

  /** for good, */
  lemma CancelledRecord(cfg: Config, s: Sys, step: Step, n: string)
    requires n in s.core.procs
    ensures s.core.procs[n].cancelled <= RecordAfter(cfg, s, step, n).cancelled
  {
    hide MarkOne, Admit, Launch, LeaveTimer, CloseFinished, Exit, FailStart, ExitState, ExitRestarts, HasWaiter,
         TheWaiter;
    SectionsCancel(s.core.procs[n]);
    OtherSectionsCancel(s.core.procs[n]);
  }

  lemma CancelledKeeps(cfg: Config, s: Sys, s': Sys, step: Step, n: string)
    requires Inv(cfg, s) && Next(cfg, s, s', step) && n in s.core.procs
    ensures n in s'.core.procs && s.core.procs[n].cancelled <= s'.core.procs[n].cancelled
  {
    hide Inv, Next, RecordAfter, WaitersAfter, Approached;
    Effects(cfg, s, s', step, n);
    CancelledRecord(cfg, s, step, n);
  }

  /** and a cancelled timer launches nothing. */
  lemma CancelledNeverTaken(cfg: Config, s: Sys, s': Sys, r: Run)
    requires Next(cfg, s, s', TimerTake(r)) && r.name in s.core.procs
    ensures r.gen !in s.core.procs[r.name].cancelled
  {
  }

  lemma {:induction false} CancelledUntil(cfg: Config, trace: seq<Sys>, steps: seq<Step>, i: nat, j: nat, n: string, k: nat)
    requires Trace(cfg, trace, steps) && i <= j <= |steps|
    requires n in trace[i].core.procs && k in trace[i].core.procs[n].cancelled
    ensures n in trace[j].core.procs && k in trace[j].core.procs[n].cancelled
    decreases j - i
  {
    hide Next, Inv;
    if i < j {
      CancelledUntil(cfg, trace, steps, i, j - 1, n, k);
      RunKeeps(cfg, trace, steps, j - 1);
      assert Next(cfg, trace[j - 1], trace[j - 1 + 1], steps[j - 1]);
      CancelledKeeps(cfg, trace[j - 1], trace[j], steps[j - 1], n);
    }
  }

  /** A restart that was reserved, or whose timer had even fired, when a stop was
      requested never launches anything, however long its waiter queues for the lock. */
  lemma StoppedTimerNeverLaunches(cfg: Config, trace: seq<Sys>, steps: seq<Step>, i: nat, j: nat, r: Run)
    requires Trace(cfg, trace, steps) && i <= j < |steps|
    requires HasWaiter(trace[i], r) && MayRestart(TheWaiter(trace[i], r)) && Own(trace[i], r).stopRequested
    ensures steps[j] != TimerTake(r)
  {
    hide Next, Inv;
    RunKeeps(cfg, trace, steps, i);
    StopCancels(cfg, trace[i], r);
    CancelledUntil(cfg, trace, steps, i, j, r.name, r.gen);
    assert Next(cfg, trace[j], trace[j + 1], steps[j]);
    if steps[j] == TimerTake(r) { CancelledNeverTaken(cfg, trace[j], trace[j + 1], r); }
  }

  lemma {:induction false} SpentUntil(cfg: Config, trace: seq<Sys>, steps: seq<Step>, i: nat, j: nat, r: Run)
    requires Trace(cfg, trace, steps) && i <= j <= |steps| && Spent(trace[i], r)
    ensures Spent(trace[j], r)
    decreases j - i
  {
    hide Next, Inv, Spent;
    if i < j {
      SpentUntil(cfg, trace, steps, i, j - 1, r);
      RunKeeps(cfg, trace, steps, j - 1);
      assert Next(cfg, trace[j - 1], trace[j - 1 + 1], steps[j - 1]);
      SpentKeeps(cfg, trace[j - 1], trace[j], steps[j - 1], r);
    }
  }

  lemma TakeStep(cfg: Config, s: Sys, s': Sys, r: Run)
    requires Next(cfg, s, s', TimerTake(r))
    ensures DoTimerTake(s, s', r)
  {
    hide DoTimerTake;
  }

  lemma SpentNotTaken(s: Sys, s': Sys, r: Run)
    requires Spent(s, r)
    ensures !DoTimerTake(s, s', r)
  {
  }

  /** One reservation yields at most one launch. */
  lemma TakenOnce(cfg: Config, trace: seq<Sys>, steps: seq<Step>, i: nat, j: nat, r: Run)
    requires Trace(cfg, trace, steps) && i < j < |steps| && steps[i] == TimerTake(r)
    ensures steps[j] != TimerTake(r)
  {
    hide Next, Inv, Spent, DoTimerTake;
    assert Next(cfg, trace[i], trace[i + 1], steps[i]);
    assert Next(cfg, trace[j], trace[j + 1], steps[j]);
    RunKeeps(cfg, trace, steps, i);
    TakeStep(cfg, trace[i], trace[i + 1], r);
    TakeSpends(cfg, trace[i], trace[i + 1], r);
    SpentUntil(cfg, trace, steps, i + 1, j, r);
    SpentNotTaken(trace[j], trace[j + 1], r);
    if steps[j] == TimerTake(r) { TakeStep(cfg, trace[j], trace[j + 1], r); }
  }

  // ---------- The loop of stopProcesses ----------

  ghost predicate Stopped(s: Sys, n: string) {
    n in s.core.procs && s.core.procs[n].stopRequested
  }

  ghost predicate StoppedIdle(s: Sys, n: string) {
    Stopped(s, n) && s.core.procs[n].runner.None?
  }

  /** stopProcesses is over and has not been followed by a start. */
  predicate AfterStop(h: Holder) {
    h.Busy? && ((h.pc.Return? && (h.op.OpStop? || h.op.OpStopAll?)) || (h.pc.ResumeNext? && h.index == |StopList(h.op)|))
  }

  ghost predicate LoopOk(s: Sys) {
    s.holder.Busy? ==>
      var order, pc, index := StopList(s.holder.op), s.holder.pc, s.holder.index;
      && (InStop(pc) ==> index <= |order| && forall x :: x in order ==> Stopped(s, x))
      && (InStop(pc) && !s.holder.failed ==> forall i :: 0 <= i < index ==> StoppedIdle(s, order[i]))
      && (pc.StopWait? || pc.StopJoin? ==> 
            index < |order| && order[index] in s.core.procs && s.core.procs[order[index]].finished == pc.finished)
      && (AfterStop(s.holder) && !s.holder.failed ==> forall x :: x in order ==> StoppedIdle(s, x))
  }

  /** A change that withdraws no stop request and neither gives the process a runner nor
      a new channel. */
  predicate Leaves(p: Proc, q: Proc) {
    && (p.stopRequested ==> q.stopRequested) && (p.runner.None? ==> q.runner.None?)
    && q.finished == p.finished
  }

  lemma HolderSectionsLeave(p: Proc)
    ensures Leaves(p, p) && Leaves(p, MarkOne(p)) && Leaves(p, TurnStopping(p)) && Leaves(p, Admit(p))
    ensures Leaves(p, Skip(p))
    ensures Leaves(p, Commit(p)) && forall k :: Leaves(p, LeaveTimer(p, k))
  {
  }

  lemma WaiterSectionsLeave(p: Proc)
    ensures forall restart, outcome :: Leaves(p, Exit(p, restart, outcome))
    ensures forall f :: Leaves(p, CloseFinished(p, f))
    ensures forall retains :: Leaves(p, AddLog(p, retains))
  {
  }

  /** What every step but a launch and a failed start leaves of a process. */
  lemma StoppedRecord(cfg: Config, s: Sys, step: Step, n: string)
    requires n in s.core.procs && !Launches(s, step, n) && !At(s.holder, n).Fail?
    ensures Leaves(s.core.procs[n], RecordAfter(cfg, s, step, n))
  {
    hide Leaves, MarkOne, TurnStopping, Admit, Skip, Commit, LeaveTimer, Exit, CloseFinished, AddLog, ExitRestarts,
         HasWaiter, TheWaiter;
    HolderSectionsLeave(s.core.procs[n]);
    WaiterSectionsLeave(s.core.procs[n]);
  }

  lemma StoppedKeeps(cfg: Config, s: Sys, s': Sys, step: Step, n: string)
    requires Inv(cfg, s) && Next(cfg, s, s', step) && n in s.core.procs
    requires Stopping(s.holder)
    ensures n in s'.core.procs && s'.core.procs[n].finished == s.core.procs[n].finished
    ensures Stopped(s, n) ==> Stopped(s', n)
    ensures StoppedIdle(s, n) ==> StoppedIdle(s', n)
  {
    hide Inv, Next, RecordAfter, WaitersAfter, Approached;
    Effects(cfg, s, s', step, n);
    StoppedRecord(cfg, s, step, n);
  }

  predicate Stopping(h: Holder) {
    h.Busy? && (InStop(h.pc) || AfterStop(h))
  }

  /** The loop's facts survive whatever does not move the holder. */
  lemma LoopStays(cfg: Config, s: Sys, s': Sys, step: Step)
    requires Inv(cfg, s) && Next(cfg, s, s', step) && LoopOk(s)
    requires Stopping(s'.holder) ==> s.holder.Busy? && s'.holder == s.holder.(outbox := s'.holder.outbox)
    ensures LoopOk(s')
  {
    hide Inv, Next, LoopOk, Stopping;
    if Stopping(s'.holder) {
      SameStopping(s.holder, s'.holder);
      forall n | n in s.core.procs ensures Persists(s, s', n) {
        StoppedKeeps(cfg, s, s', step, n);
      }
      LoopPersists(s, s');
    } else {
      NoLoop(s');
    }
  }

  lemma SameStopping(h: Holder, h': Holder)
    requires h.Busy? && h'.Busy? && h' == h.(outbox := h'.outbox)
    ensures Stopping(h') == Stopping(h)
  {
  }

  ghost predicate Persists(s: Sys, s': Sys, n: string)
    requires n in s.core.procs
  {
    && n in s'.core.procs && s'.core.procs[n].finished == s.core.procs[n].finished
    && (Stopped(s, n) ==> Stopped(s', n)) && (StoppedIdle(s, n) ==> StoppedIdle(s', n))
  }

  lemma NoLoop(s: Sys)
    requires !Stopping(s.holder)
    ensures LoopOk(s)
  {
  }

  lemma LoopPersists(s: Sys, s': Sys)
    requires LoopOk(s) && s.holder.Busy? && s'.holder.Busy? && s'.holder == s.holder.(outbox := s'.holder.outbox)
    requires forall n :: n in s.core.procs ==> Persists(s, s', n)
    ensures LoopOk(s')
  {
  }

  lemma MarkLoop(cfg: Config, s: Sys, s': Sys)
    requires Frame(cfg, s) && DoMark(s, s')
    ensures LoopOk(s')
  {
    hide Distinct, DependentsFirst, Edge, DoneOk, ConfigOk, IsStartOrder;
  }

  lemma TurnLoop(cfg: Config, s: Sys, s': Sys, n: string)
    requires Frame(cfg, s) && DoTurn(s, s', n) && LoopOk(s)
    ensures LoopOk(s')
  {
    hide DoneOk, ConfigOk, IsStartOrder, Covers;
    assert Stopped(s, n);
  }

  lemma PassLoop(cfg: Config, s: Sys, s': Sys, n: string)
    requires DoPass(s, s', n) && LoopOk(s)
    ensures LoopOk(s')
  {
    assert Stopped(s, n);
  }

  /** A joined run has ended: its channel is closed, and a process with a runner has an
      open one. */
  lemma JoinedStops(cfg: Config, s: Sys, n: string, finished: Option<nat>)
    requires Inv(cfg, s) && Stopped(s, n) && s.core.procs[n].finished == finished
    requires finished.Some? && finished.value in s.core.procs[n].closed
    ensures StoppedIdle(s, n)
  {
    hide Frame, UnitOk;
    FrameKeys(cfg, s);
    JoinedIdle(ViewOf(s, n));
  }

  lemma JoinLoop(cfg: Config, s: Sys, s': Sys)
    requires Inv(cfg, s) && DoJoin(s, s') && LoopOk(s)
    ensures LoopOk(s')
  {
    hide Inv;
    var n := StopList(s.holder.op)[s.holder.index];
    assert Stopped(s, n);
    JoinedStops(cfg, s, n, s.holder.pc.finished);
  }

  lemma JoinedIdle(v: View)
    requires UnitOk(v) && v.p.finished.Some? && v.p.finished.value in v.p.closed
    ensures v.p.runner.None?
  {
  }

  lemma StopReturnsLoop(cfg: Config, s: Sys, s': Sys, ok: bool)
    requires DoStopReturns(s, s', ok) && LoopOk(s)
    ensures LoopOk(s')
  {
    hide HasWaiter, TheWaiter;
  }

  lemma StopEndLoop(cfg: Config, s: Sys, s': Sys)
    requires DoStopEnd(s, s') && LoopOk(s)
    ensures LoopOk(s')
  {
    hide AllDone, DoneOk;
  }

  // The steps that end outside the loop.

  lemma CommandOutside(cfg: Config, s: Sys, s': Sys, step: Step)
    requires CommandNext(cfg, s, s', step)
    ensures !Stopping(s'.holder)
  {
    hide IsStartOrder, IsFullStopOrder, IsStopOrder;
  }

  lemma StartOutside(cfg: Config, s: Sys, s': Sys, step: Step)
    requires Frame(cfg, s) && StartNext(cfg, s, s', step)
    ensures !Stopping(s'.holder)
  {
    hide ConfigOk, Covers, DoneOk, IsStartOrder, StartNext;
    StartFrame(cfg, s, s', step);
    StartIndex(cfg, s, s', step);
  }

  lemma StartIndex(cfg: Config, s: Sys, s': Sys, step: Step)
    requires StartNext(cfg, s, s', step) && s.holder.Busy? && s'.holder.Busy?
    ensures s'.holder.index == s.holder.index || s.holder.op.OpInitial?
  {
    hide AllDone, Launch, FailStart, Commit;
  }

  lemma PickOutside(cfg: Config, s: Sys, s': Sys)
    requires DoPick(cfg, s, s')
    ensures !Stopping(s'.holder)
  {
  }

  lemma SkipOutside(cfg: Config, s: Sys, s': Sys)
    requires DoSkip(s, s')
    ensures !Stopping(s'.holder)
  {
  }

  lemma AdmitOutside(cfg: Config, s: Sys, s': Sys)
    requires DoAdmit(cfg, s, s')
    ensures !Stopping(s'.holder)
  {
  }

  lemma TurnsLoop(cfg: Config, s: Sys, s': Sys, step: Step)
    requires Inv(cfg, s) && LoopOk(s) && Next(cfg, s, s', step) && TurnNext(cfg, s, s', step)
    ensures LoopOk(s')
  {
    hide Inv, LoopOk, Next, Stopping, DoMark, DoTurn, DoSkip, DoPick, DoAdmit;
    InvFrame(cfg, s);
    match step
    case HolderEmit => LoopStays(cfg, s, s', step);
    case PickStep => PickOutside(cfg, s, s'); NoLoop(s');
    case SkipStep => SkipOutside(cfg, s, s'); NoLoop(s');
    case MarkStep => MarkLoop(cfg, s, s');
    case TurnStep(n) => TurnLoop(cfg, s, s', n);
    case AdmitStep => AdmitOutside(cfg, s, s'); NoLoop(s');
    case ReturnStep => FreeOutside(s'); NoLoop(s');
    case _ =>
  }

  lemma InvFrame(cfg: Config, s: Sys)
    requires Inv(cfg, s)
    ensures Frame(cfg, s)
  {
  }

  lemma FreeOutside(s: Sys)
    requires s.holder.Free?
    ensures !Stopping(s.holder)
  {
  }

  lemma MoveOutside(cfg: Config, s: Sys, s': Sys, step: Step)
    requires Frame(cfg, s) && MoveNext(cfg, s, s', step)
    requires !step.StopEndStep? && !step.StopReturns? && !step.JoinStep? && !step.PassStep?
    ensures !Stopping(s'.holder)
  {
    hide ConfigOk, Covers, DoneOk, IsStartOrder, AllDone, Startable;
  }

  lemma MovesLoop(cfg: Config, s: Sys, s': Sys, step: Step)
    requires Inv(cfg, s) && LoopOk(s) && MoveNext(cfg, s, s', step)
    ensures LoopOk(s')
  {
    hide Inv, LoopOk, Stopping, DoStopEnd, DoStopReturns, DoJoin, DoPass, DoInitialEnd, DoRestartContext,
         DoResumeRead, DoResume, DoContext, DoReject;
    InvFrame(cfg, s);
    match step
    case StopEndStep => StopEndLoop(cfg, s, s');
    case StopReturns(ok) => StopReturnsLoop(cfg, s, s', ok);
    case JoinStep => JoinLoop(cfg, s, s');
    case PassStep(n) => PassLoop(cfg, s, s', n);
    case _ => MoveOutside(cfg, s, s', step); NoLoop(s');
  }

  lemma LoopKeeps(cfg: Config, s: Sys, s': Sys, step: Step)
    requires Inv(cfg, s) && LoopOk(s) && Next(cfg, s, s', step)
    ensures LoopOk(s')
  {
    hide Inv, LoopOk, Stopping, CommandNext, MoveNext, TurnNext, StartNext, OutputNext, EndNext, RunNext;
    InvFrame(cfg, s);
    if CommandNext(cfg, s, s', step) {
      CommandOutside(cfg, s, s', step);
      NoLoop(s');
    } else if MoveNext(cfg, s, s', step) {
      MovesLoop(cfg, s, s', step);
    } else if TurnNext(cfg, s, s', step) {
      TurnsLoop(cfg, s, s', step);
    } else if StartNext(cfg, s, s', step) {
      StartOutside(cfg, s, s', step);
      NoLoop(s');
    } else {
      OthersLoop(cfg, s, s', step);
    }
  }

  lemma OthersLoop(cfg: Config, s: Sys, s': Sys, step: Step)
    requires Inv(cfg, s) && LoopOk(s) && Next(cfg, s, s', step)
    requires OutputNext(cfg, s, s', step) || EndNext(cfg, s, s', step) || RunNext(cfg, s, s', step)
    ensures LoopOk(s')
  {
    hide Inv, LoopOk, Next, OutputNext, EndNext, RunNext;
    if OutputNext(cfg, s, s', step) {
      OutputFrame(cfg, s, s', step);
    } else if EndNext(cfg, s, s', step) {
      EndFrame(cfg, s, s', step);
    } else {
      RunFrame(cfg, s, s', step);
    }
    LoopStays(cfg, s, s', step);
  }

  lemma {:induction false} RunKeepsLoop(cfg: Config, trace: seq<Sys>, steps: seq<Step>, i: nat)
    requires Trace(cfg, trace, steps) && i < |trace|
    ensures LoopOk(trace[i])
  {
    hide Next, Inv, Stopping, InStop, AfterStop;
    if i > 0 {
      RunKeeps(cfg, trace, steps, i - 1);
      RunKeepsLoop(cfg, trace, steps, i - 1);
      assert Next(cfg, trace[i - 1], trace[i - 1 + 1], steps[i - 1]);
      LoopKeeps(cfg, trace[i - 1], trace[i], steps[i - 1]);
    }
  }

  /** A stop that returns nil leaves everything it covers down. */
  lemma StopReturnsDown(cfg: Config, s: Sys, n: string)
    requires Inv(cfg, s) && LoopOk(s) && AfterStop(s.holder) && !s.holder.failed && n in StopList(s.holder.op)
    ensures n in s.core.procs && Down(s.core.procs[n])
  {
    hide Frame, RunnerOk, RestOk, HolderOk, WaiterOk;
    FrameKeys(cfg, s);
    assert StoppedIdle(s, n);
    StoppedDown(ViewOf(s, n));
  }

  lemma StoppedDown(v: View)
    requires UnitOk(v) && v.p.stopRequested && v.p.runner.None?
    ensures Down(v.p)
  {
  }

  /** A manual start or restart that covers process n launches it, or the initial start does. */
  predicate LaunchesByHand(s: Sys, step: Step, n: string) {
    && Launches(s, step, n) && s.holder.Busy?
    && (s.holder.op.OpInitial? || s.holder.op == OpStart(n) || (s.holder.op.OpRestart? && n in s.holder.op.order))
  }

  lemma {:induction false} DownUntil(cfg: Config, trace: seq<Sys>, steps: seq<Step>, i: nat, j: nat, n: string)
    requires Trace(cfg, trace, steps) && i <= j <= |steps|
    requires n in trace[i].core.procs && Down(trace[i].core.procs[n])
    requires forall k :: i <= k < j ==> !LaunchesByHand(trace[k], steps[k], n)
    ensures n in trace[j].core.procs && Down(trace[j].core.procs[n])
    decreases j - i
  {
    hide Next, Inv, Down;
    if i < j {
      DownUntil(cfg, trace, steps, i, j - 1, n);
      RunKeeps(cfg, trace, steps, j - 1);
      assert Next(cfg, trace[j - 1], trace[j - 1 + 1], steps[j - 1]);
      DownNotLaunched(cfg, trace[j - 1], steps[j - 1], n);
      DownKeeps(cfg, trace[j - 1], trace[j], steps[j - 1], n);
    }
  }

  lemma DownNotLaunched(cfg: Config, s: Sys, step: Step, n: string)
    requires Inv(cfg, s) && n in s.core.procs && Down(s.core.procs[n]) && !LaunchesByHand(s, step, n)
    ensures !Launches(s, step, n)
  {
    hide Inv, Down;
    if Launches(s, step, n) {
      BeginName(s.holder, n);
      DownLaunchedByHand(cfg, s, n);
    }
  }

  lemma BeginName(h: Holder, n: string)
    requires At(h, n).Begin?
    ensures h.Busy? && h.pc == Begin(n)
  {
  }

  /** Manual stop sticks: after a stop that returned nil, a process it covered is down at
      every later point before a manual start or restart that covers it launches it. */
  lemma ManualStopSticks(cfg: Config, trace: seq<Sys>, steps: seq<Step>, i: nat, j: nat, n: string)
    requires Trace(cfg, trace, steps) && i <= j <= |steps|
    requires AfterStop(trace[i].holder) && !trace[i].holder.failed && n in StopList(trace[i].holder.op)
    requires forall k :: i <= k < j ==> !LaunchesByHand(trace[k], steps[k], n)
    ensures n in trace[j].core.procs && Down(trace[j].core.procs[n])
  {
    hide Next, Inv, LoopOk, Down, LaunchesByHand, Init, AfterStop;
    RunKeeps(cfg, trace, steps, i);
    RunKeepsLoop(cfg, trace, steps, i);
    StopReturnsDown(cfg, trace[i], n);
    DownUntil(cfg, trace, steps, i, j, n);
  }
}
