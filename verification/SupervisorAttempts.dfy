/** Starting processes: whoever was to be started was started, or there is a reason why not.
    This holds of the initial start, of StartProcess and of RestartProcess. */
module SupervisorAttempts {
  import opened DependencyGraph
  import opened StopOrder
  import opened Lifecycle
  import opened Options
  import opened SupervisorMachine
  import opened SupervisorUnit
  import opened SupervisorInvariant
  import opened SupervisorEffects
  import opened SupervisorDependencies
  import opened SupervisorStops
  import opened SupervisorRestart
  import opened SupervisorDecisions
  import opened SupervisorOutcomes

  // ---------- How an attempt ends ----------

  predicate HolderAt(s: Sys, pc: Pc) {
    s.holder.Busy? && s.holder.pc == pc
  }

  /** The command of process n has been started. */
  predicate LaunchedAt(s: Sys, step: Step, n: string) {
    step.CommitStep? && HolderAt(s, CommitAt(n))
  }

  /** Process n is not started, for a reason: the supervisor is going down, the process is
      active, a dependency is not up, its specification is wrong, or its command fails. */
  ghost predicate RefusedAt(cfg: Config, s: Sys, step: Step, n: string) {
    || (step.ContextStep? && HolderAt(s, ManualContext(n)) && Shut(s))
    || (step.RejectStep? && HolderAt(s, ManualGate(n)) && NotStartable(cfg, s, n))
    || (step.RefuseStep? && HolderAt(s, Begin(n)) && (s.core.stopping || s.ctxDone))
    || (step == LaunchStep(false) && HolderAt(s, Begin(n)))
    || (step == ExecStep(false) && HolderAt(s, Exec(n)))
  }

  predicate SameSpot(h: Holder, h': Holder) {
    h.Busy? && h'.Busy? && h' == h.(outbox := h'.outbox)
  }

  predicate Undecided(pc: Pc) {
    PcName(pc).Some? && !pc.SkipAt? && !pc.Spawn? && !pc.Fail?
  }

  /** How an attempt to start process n goes on. */
  ghost predicate AttemptMoves(cfg: Config, s: Sys, s': Sys, step: Step, n: string)
    requires s.holder.Busy?
  {
    var h, h' := s.holder, s'.holder;
    && h'.Busy?
    && (|| SameSpot(h, h')
        || (RefusedAt(cfg, s, step, n) && (h' == h.(pc := Fail(n), outbox := h'.outbox) || h' == After(h, false)))
        || (LaunchedAt(s, step, n) && h' == h.(pc := Spawn(n), outbox := h'.outbox, launched := h'.launched))
        || (h.pc == Spawn(n) && h' == After(h, true))
        || (h.pc == Fail(n) && h' == After(h, false).(outbox := h'.outbox))
        || (Undecided(h.pc) && Undecided(h'.pc) && PcName(h'.pc) == Some(n) && h' == h.(pc := h'.pc, outbox := h'.outbox)))
    && (RefusedAt(cfg, s, step, n) || LaunchedAt(s, step, n) ==> !SameSpot(h, h') && !Undecided(h'.pc))
  }

  lemma StartAttempt(cfg: Config, s: Sys, s': Sys, step: Step, n: string)
    requires StartNext(cfg, s, s', step) && s.holder.Busy? && PcName(s.holder.pc) == Some(n) && !s.holder.pc.SkipAt?
    ensures AttemptMoves(cfg, s, s', step, n)
  {
    hide AllDone, Launch, FailStart, Commit, Changed, NotStartable;
  }

  lemma MoveAttempt(cfg: Config, s: Sys, s': Sys, step: Step, n: string)
    requires MoveNext(cfg, s, s', step) && s.holder.Busy? && PcName(s.holder.pc) == Some(n) && !s.holder.pc.SkipAt?
    requires step.RejectStep? ==> NotStartable(cfg, s, n)
    ensures AttemptMoves(cfg, s, s', step, n)
  {
    hide AllDone, HasWaiter, ResumeSet, NotStartable, Startable;
  }

  lemma TurnAttempt(cfg: Config, s: Sys, s': Sys, step: Step, n: string)
    requires TurnNext(cfg, s, s', step) && s.holder.Busy? && PcName(s.holder.pc) == Some(n) && !s.holder.pc.SkipAt?
    ensures AttemptMoves(cfg, s, s', step, n)
  {
    hide MarkOne, MarkEvents, Admit, Skip, TurnStopping, LeaveTimer, DepsReady, Startable, NotStartable, Changed, MarkStopped;
  }

  lemma OutsideAttempt(cfg: Config, s: Sys, s': Sys, step: Step, n: string)
    requires CommandNext(cfg, s, s', step) || OutputNext(cfg, s, s', step) || EndNext(cfg, s, s', step) || RunNext(cfg, s, s', step)
    requires s.holder.Busy?
    ensures s'.holder == s.holder && !RefusedAt(cfg, s, step, n) && !LaunchedAt(s, step, n)
  {
    hide CommandNext, OutputNext, EndNext, RunNext, NotStartable;
    if CommandNext(cfg, s, s', step) { CommandWhenFree(cfg, s, s', step); assert false; }
    else if OutputNext(cfg, s, s', step) { OutputFrame(cfg, s, s', step); OutputKind(cfg, s, s', step); }
    else if EndNext(cfg, s, s', step) { EndFrame(cfg, s, s', step); EndsKind(cfg, s, s', step); }
    else { RunFrame(cfg, s, s', step); RunKind(cfg, s, s', step); }
  }

  lemma OutputKind(cfg: Config, s: Sys, s': Sys, step: Step)
    requires OutputNext(cfg, s, s', step)
    ensures RunOf(step).Some?
  {
    hide DoWaiterEmit, DoForwardAdd, DoForwardEmit, DoOutput, DoProcessExit, DoTimerFires;
  }

  lemma EndsKind(cfg: Config, s: Sys, s': Sys, step: Step)
    requires EndNext(cfg, s, s', step)
    ensures RunOf(step).Some?
  {
    hide DoExit, DoStale, DoClose, DoReserve, DoCancelSeen, DoTimerTake, DoTimerLapse;
  }

  lemma RunKind(cfg: Config, s: Sys, s': Sys, step: Step)
    requires RunNext(cfg, s, s', step)
    ensures step.Watch? || step.Announce? || step.CloseEvents? || step.ContextCancel?
  {
    hide DoWatch, DoAnnounce, DoCloseEvents;
  }

  lemma RejectReason(cfg: Config, s: Sys, s': Sys, n: string)
    requires Inv(cfg, s) && MoveNext(cfg, s, s', RejectStep) && HolderAt(s, ManualGate(n))
    ensures NotStartable(cfg, s, n)
  {
    hide Inv, Startable, NotStartable;
    InvFrame(cfg, s);
    StartableMeans(cfg, s, n);
  }

  lemma RejectAt(cfg: Config, s: Sys, s': Sys)
    requires MoveNext(cfg, s, s', RejectStep)
    ensures s.holder.Busy? && s.holder.pc.ManualGate?
  {
    hide Startable;
  }

  /** Every step, as seen by the attempt to start process n. */
  lemma AttemptStep(cfg: Config, s: Sys, s': Sys, step: Step, n: string)
    requires Inv(cfg, s) && Next(cfg, s, s', step) && s.holder.Busy? && PcName(s.holder.pc) == Some(n) && !s.holder.pc.SkipAt?
    ensures AttemptMoves(cfg, s, s', step, n)
  {
    hide Inv, AttemptMoves, NotStartable, CommandNext, MoveNext, TurnNext, StartNext, OutputNext, EndNext, RunNext;
    if StartNext(cfg, s, s', step) { StartAttempt(cfg, s, s', step, n); }
    else if MoveNext(cfg, s, s', step) {
      if step.RejectStep? { RejectAt(cfg, s, s'); RejectReason(cfg, s, s', n); }
      MoveAttempt(cfg, s, s', step, n);
    }
    else if TurnNext(cfg, s, s', step) { TurnAttempt(cfg, s, s', step, n); }
    else { OutsideAttempt(cfg, s, s', step, n); StaysPut(cfg, s, s', step, n); }
  }

  lemma StaysPut(cfg: Config, s: Sys, s': Sys, step: Step, n: string)
    requires s.holder.Busy? && s'.holder == s.holder && !RefusedAt(cfg, s, step, n) && !LaunchedAt(s, step, n)
    ensures AttemptMoves(cfg, s, s', step, n)
  {
    hide RefusedAt;
  }

  // ---------- StartProcess ----------

  lemma StartReturns(cfg: Config, s: Sys, s': Sys, step: Step)
    requires StartNext(cfg, s, s', step) && s.holder.Busy?
    ensures !s.holder.pc.Return?
  {
    hide AllDone, Launch, FailStart, Commit, Changed;
  }

  lemma MoveReturns(cfg: Config, s: Sys, s': Sys, step: Step)
    requires MoveNext(cfg, s, s', step) && s.holder.Busy?
    ensures !s.holder.pc.Return?
  {
    hide AllDone, Startable, HasWaiter, ResumeSet;
  }

  lemma TurnReturns(cfg: Config, s: Sys, s': Sys, step: Step)
    requires TurnNext(cfg, s, s', step) && s.holder.Busy? && s.holder.pc.Return? && !step.ReturnStep?
    ensures SameSpot(s.holder, s'.holder)
  {
    hide MarkOne, MarkEvents, Admit, Skip, TurnStopping, LeaveTimer, DepsReady, Startable, Changed, MarkStopped;
  }

  /** An operation that has done its work only sends its events before it returns. */
  lemma DoneStays(cfg: Config, s: Sys, s': Sys, step: Step)
    requires Next(cfg, s, s', step) && s.holder.Busy? && s.holder.pc.Return? && !step.ReturnStep?
    ensures SameSpot(s.holder, s'.holder)
  {
    hide CommandNext, MoveNext, TurnNext, StartNext, OutputNext, EndNext, RunNext;
    if StartNext(cfg, s, s', step) { StartReturns(cfg, s, s', step); }
    else if MoveNext(cfg, s, s', step) { MoveReturns(cfg, s, s', step); }
    else if TurnNext(cfg, s, s', step) { TurnReturns(cfg, s, s', step); }
    else { OutsideAttempt(cfg, s, s', step, ""); }
  }

  ghost predicate Launched(trace: seq<Sys>, steps: seq<Step>, i: nat, j: nat, n: string)
    requires j <= |steps| < |trace|
  {
    exists m :: i < m < j && LaunchedAt(trace[m], steps[m], n)
  }

  ghost predicate Refused(cfg: Config, trace: seq<Sys>, steps: seq<Step>, i: nat, j: nat, n: string)
    requires j <= |steps| < |trace|
  {
    exists m :: i < m < j && RefusedAt(cfg, trace[m], steps[m], n)
  }

  lemma LaunchedNext(trace: seq<Sys>, steps: seq<Step>, i: nat, j: nat, n: string)
    requires i < j < |steps| < |trace|
    ensures Launched(trace, steps, i, j + 1, n) <==> Launched(trace, steps, i, j, n) || LaunchedAt(trace[j], steps[j], n)
  {
    hide LaunchedAt;
  }

  lemma RefusedNext(cfg: Config, trace: seq<Sys>, steps: seq<Step>, i: nat, j: nat, n: string)
    requires i < j < |steps| < |trace|
    ensures Refused(cfg, trace, steps, i, j + 1, n) <==> Refused(cfg, trace, steps, i, j, n) || RefusedAt(cfg, trace[j], steps[j], n)
  {
    hide RefusedAt;
  }

  datatype Verdict = Open | Up | NotUp

  /** How far a call of StartProcess has come. */
  function VerdictOf(h: Holder): Verdict
    requires h.Busy?
  {
    if h.pc.Spawn? || (h.pc.Return? && !h.failed) then Verdict.Up
    else if h.pc.Fail? || (h.pc.Return? && h.failed) then Verdict.NotUp
    else Verdict.Open
  }

  predicate InStart(h: Holder, n: string) {
    h.Busy? && h.op == OpStart(n) && (h.pc.Return? || (PcName(h.pc) == Some(n) && !h.pc.SkipAt? && !h.failed))
  }

  lemma DecidedWhere(cfg: Config, s: Sys, step: Step, n: string)
    ensures RefusedAt(cfg, s, step, n) ==> s.holder.Busy? && Undecided(s.holder.pc) && PcName(s.holder.pc) == Some(n) && !step.CommitStep?
    ensures LaunchedAt(s, step, n) ==> s.holder.Busy? && s.holder.pc == CommitAt(n) && step.CommitStep?
  {
    hide NotStartable;
  }

  lemma StartGoesOn(cfg: Config, s: Sys, s': Sys, step: Step, n: string)
    requires Inv(cfg, s) && Next(cfg, s, s', step) && InStart(s.holder, n) && !step.ReturnStep?
    ensures InStart(s'.holder, n)
    ensures VerdictOf(s'.holder) == if LaunchedAt(s, step, n) then Verdict.Up else if RefusedAt(cfg, s, step, n) then Verdict.NotUp
                                    else VerdictOf(s.holder)
    ensures LaunchedAt(s, step, n) || RefusedAt(cfg, s, step, n) ==> VerdictOf(s.holder).Open?
    ensures !(LaunchedAt(s, step, n) && RefusedAt(cfg, s, step, n))
  {
    hide Inv, Next, LaunchedAt, RefusedAt;
    DecidedWhere(cfg, s, step, n);
    if s.holder.pc.Return? { DoneStays(cfg, s, s', step); } else { AttemptStep(cfg, s, s', step, n); }
  }

  lemma StartBegins(cfg: Config, s: Sys, s': Sys, n: string)
    requires Next(cfg, s, s', StartCmd(n))
    ensures InStart(s'.holder, n) && VerdictOf(s'.holder).Open?
  {
    hide Next;
    CommandStep(cfg, s, s', StartCmd(n));
  }

  lemma {:induction false} StartCall(cfg: Config, trace: seq<Sys>, steps: seq<Step>, i: nat, j: nat, n: string)
    requires Trace(cfg, trace, steps) && i < j <= |steps| < |trace| && steps[i] == StartCmd(n)
    requires forall k :: i < k < j ==> !steps[k].ReturnStep?
    ensures InStart(trace[j].holder, n)
    ensures Launched(trace, steps, i, j, n) <==> VerdictOf(trace[j].holder).Up?
    ensures Refused(cfg, trace, steps, i, j, n) <==> VerdictOf(trace[j].holder).NotUp?
    decreases j
  {
    hide Next, Inv, Init, InStart, LaunchedAt, RefusedAt;
    StepOf(cfg, trace, steps, j - 1);
    assert Next(cfg, trace[j - 1], trace[j - 1 + 1], steps[j - 1]);
    if j == i + 1 {
      StartBegins(cfg, trace[i], trace[j], n);
      InStartBusy(trace[j].holder, n);
    } else {
      StartCall(cfg, trace, steps, i, j - 1, n);
      InStartBusy(trace[j - 1].holder, n);
      StartGoesOn(cfg, trace[j - 1], trace[j], steps[j - 1], n);
      InStartBusy(trace[j].holder, n);
      LaunchedNext(trace, steps, i, j - 1, n);
      RefusedNext(cfg, trace, steps, i, j - 1, n);
    }
  }

  lemma InStartBusy(h: Holder, n: string)
    requires InStart(h, n)
    ensures h.Busy?
  {
  }

  /** StartProcess, once it has done its work, returns nil exactly if it has started the process,
      and an error exactly if there was a reason not to. */
  lemma StartProcessDecides(cfg: Config, trace: seq<Sys>, steps: seq<Step>, i: nat, j: nat, n: string)
    requires Trace(cfg, trace, steps) && i < j < |steps| && steps[i] == StartCmd(n) && steps[j].ReturnStep?
    requires forall k :: i < k < j ==> !steps[k].ReturnStep?
    ensures |steps| < |trace| && trace[j].holder.Busy?
    ensures !trace[j].holder.failed <==> Launched(trace, steps, i, j, n)
    ensures trace[j].holder.failed <==> Refused(cfg, trace, steps, i, j, n)
  {
    hide Next, Inv, Init, LaunchedAt, RefusedAt;
    StartCall(cfg, trace, steps, i, j, n);
    StepOf(cfg, trace, steps, j);
    TurnsStep(cfg, trace[j], trace[j + 1], steps[j]);
    ReturnsAtReturn(cfg, trace[j], trace[j + 1]);
  }

  lemma ReturnsAtReturn(cfg: Config, s: Sys, s': Sys)
    requires TurnNext(cfg, s, s', ReturnStep)
    ensures s.holder.Busy? && s.holder.pc.Return?
  {
    hide LeaveTimer;
  }

  // ---------- The initial start ----------

  predicate InInitial(h: Holder) {
    h.Busy? && h.op.OpInitial?
  }

  /** Process n was passed over: when its turn came one of its dependencies was not up. */
  ghost predicate PassedAt(cfg: Config, trace: seq<Sys>, steps: seq<Step>, m: nat, n: string)
    requires m < |steps| < |trace|
  {
    steps[m].SkipStep? && HolderAt(trace[m], SkipAt(n)) && BlockedTurn(cfg, trace, steps, m, n)
  }

  ghost predicate BlockedTurn(cfg: Config, trace: seq<Sys>, steps: seq<Step>, m: nat, n: string)
    requires m <= |steps| < |trace|
  {
    exists k: nat :: k < m && steps[k].PickStep? && InInitial(trace[k].holder) && HolderAt(trace[k + 1], SkipAt(n)) && Blocked(cfg, trace[k], n)
  }

  /** The initial start has tried process n, or passed it over. */
  ghost predicate HadTurn(cfg: Config, trace: seq<Sys>, steps: seq<Step>, i: nat, n: string)
    requires i <= |steps| < |trace|
  {
    exists m: nat :: m < i && TurnAt(cfg, trace, steps, m, n)
  }

  ghost predicate TurnAt(cfg: Config, trace: seq<Sys>, steps: seq<Step>, m: nat, n: string)
    requires m < |steps| < |trace|
  {
    && InInitial(trace[m].holder)
    && (LaunchedAt(trace[m], steps[m], n) || RefusedAt(cfg, trace[m], steps[m], n) || PassedAt(cfg, trace, steps, m, n))
  }

  lemma HadTurnGrows(cfg: Config, trace: seq<Sys>, steps: seq<Step>, i: nat, n: string)
    requires i < |steps| < |trace|
    ensures HadTurn(cfg, trace, steps, i, n) ==> HadTurn(cfg, trace, steps, i + 1, n)
    ensures BlockedTurn(cfg, trace, steps, i, n) ==> BlockedTurn(cfg, trace, steps, i + 1, n)
    ensures TurnAt(cfg, trace, steps, i, n) ==> HadTurn(cfg, trace, steps, i + 1, n)
  {
    hide TurnAt, Blocked, InInitial, HolderAt;
  }

  /** How far the initial start has come. */
  ghost predicate TurnsOk(cfg: Config, trace: seq<Sys>, steps: seq<Step>, i: nat)
    requires i <= |steps| < |trace|
  {
    var h := trace[i].holder;
    InInitial(h) ==>
      && (forall j :: 0 <= j < h.index && j < |h.op.names| ==> HadTurn(cfg, trace, steps, i, h.op.names[j]))
      && (h.index < |h.op.names| && (h.pc.Spawn? || h.pc.Fail?) ==> HadTurn(cfg, trace, steps, i, h.op.names[h.index]))
      && (h.pc.SkipAt? ==> BlockedTurn(cfg, trace, steps, i, h.pc.name))
  }

  /** The initial start between two attempts. */
  ghost predicate InitialMoves(cfg: Config, s: Sys, s': Sys, step: Step)
    requires InInitial(s.holder)
  {
    var h, h' := s.holder, s'.holder;
    h'.Busy? &&
    (|| SameSpot(h, h')
    || (step.PickStep? && h.index < |h.op.names| && h' == h.(pc := h'.pc, outbox := h'.outbox)
        && (h'.pc == Begin(h.op.names[h.index]) || h'.pc == SkipAt(h.op.names[h.index])))
    || (step.InitialEndStep? && h' == h.(pc := Return))
    || (step.SkipStep? && h.pc.SkipAt? && h' == h.(pc := InitialNext, index := h.index + 1, outbox := h'.outbox)))
  }

  lemma MoveInitial(cfg: Config, s: Sys, s': Sys, step: Step)
    requires MoveNext(cfg, s, s', step) && InInitial(s.holder) && (s.holder.pc.InitialNext? || s.holder.pc.SkipAt?)
    ensures InitialMoves(cfg, s, s', step)
  {
    hide AllDone, Startable, HasWaiter, ResumeSet;
  }

  lemma TurnInitial(cfg: Config, s: Sys, s': Sys, step: Step)
    requires TurnNext(cfg, s, s', step) && InInitial(s.holder) && (s.holder.pc.InitialNext? || s.holder.pc.SkipAt?)
    ensures InitialMoves(cfg, s, s', step)
  {
    hide MarkOne, MarkEvents, Admit, Skip, TurnStopping, LeaveTimer, DepsReady, Startable, Changed, MarkStopped;
  }

  lemma StartNotInitial(cfg: Config, s: Sys, s': Sys, step: Step)
    requires StartNext(cfg, s, s', step)
    ensures s.holder.Busy? && !s.holder.pc.InitialNext? && !s.holder.pc.SkipAt?
  {
    hide AllDone, Launch, FailStart, Commit, Changed;
  }

  lemma InitialStep(cfg: Config, s: Sys, s': Sys, step: Step)
    requires Next(cfg, s, s', step) && InInitial(s.holder) && (s.holder.pc.InitialNext? || s.holder.pc.SkipAt?)
    ensures InitialMoves(cfg, s, s', step)
  {
    hide InitialMoves, CommandNext, MoveNext, TurnNext, StartNext, OutputNext, EndNext, RunNext;
    if StartNext(cfg, s, s', step) { StartNotInitial(cfg, s, s', step); }
    else if MoveNext(cfg, s, s', step) { MoveInitial(cfg, s, s', step); }
    else if TurnNext(cfg, s, s', step) { TurnInitial(cfg, s, s', step); }
    else { OutsideAttempt(cfg, s, s', step, ""); StaysInitial(cfg, s, s', step); }
  }

  lemma StaysInitial(cfg: Config, s: Sys, s': Sys, step: Step)
    requires InInitial(s.holder) && s'.holder == s.holder
    ensures InitialMoves(cfg, s, s', step)
  {
  }

  lemma CommandInitial(cfg: Config, s: Sys, s': Sys, step: Step)
    requires CommandNext(cfg, s, s', step) && InInitial(s'.holder)
    ensures s'.holder.index == 0 && s'.holder.pc.InitialNext?
  {
    hide IsStartOrder, IsFullStopOrder, IsStopOrder;
  }

  /** The initial start begins at the first process, and keeps its list. */
  lemma InitialComes(cfg: Config, s: Sys, s': Sys, step: Step)
    requires Next(cfg, s, s', step) && InInitial(s'.holder) && !InInitial(s.holder)
    ensures s'.holder.index == 0 && s'.holder.pc.InitialNext?
  {
    hide InInitial, CommandNext, MoveNext, TurnNext, StartNext, OutputNext, EndNext, RunNext;
    if CommandNext(cfg, s, s', step) { CommandInitial(cfg, s, s', step); }
    else { HolderOp(cfg, s, s', step); }
  }

  lemma HolderOp(cfg: Config, s: Sys, s': Sys, step: Step)
    requires Next(cfg, s, s', step) && !CommandNext(cfg, s, s', step)
    ensures InInitial(s'.holder) ==> InInitial(s.holder)
  {
    hide CommandNext, MoveNext, TurnNext, StartNext, OutputNext, EndNext, RunNext;
    if MoveNext(cfg, s, s', step) { MoveFrame(cfg, s, s', step); }
    else if TurnNext(cfg, s, s', step) { TurnFrame(cfg, s, s', step); }
    else if StartNext(cfg, s, s', step) { StartFrame(cfg, s, s', step); }
    else if OutputNext(cfg, s, s', step) { OutputFrame(cfg, s, s', step); }
    else if EndNext(cfg, s, s', step) { EndFrame(cfg, s, s', step); }
    else { RunFrame(cfg, s, s', step); }
  }

  lemma InitialPlace(cfg: Config, s: Sys)
    requires Inv(cfg, s) && InInitial(s.holder)
    ensures var h := s.holder;
            && h.index <= |h.op.names|
            && (h.pc.InitialNext? || h.pc.Return? || (h.index < |h.op.names| && PcName(h.pc) == Some(h.op.names[h.index])))
  {
    hide Units, ConfigOk, DoneOk, IsStartOrder;
  }

  /** The turns taken so far, and perhaps that of the process the holder has come to. */
  ghost predicate TurnsUpTo(cfg: Config, trace: seq<Sys>, steps: seq<Step>, i: nat, names: seq<string>, k: nat)
    requires i <= |steps| < |trace|
  {
    forall j :: 0 <= j < k && j < |names| ==> HadTurn(cfg, trace, steps, i, names[j])
  }

  lemma TurnsGrow(cfg: Config, trace: seq<Sys>, steps: seq<Step>, i: nat, names: seq<string>, k: nat)
    requires i < |steps| < |trace| && TurnsUpTo(cfg, trace, steps, i, names, k)
    ensures TurnsUpTo(cfg, trace, steps, i + 1, names, k)
  {
    hide HadTurn;
    forall j | 0 <= j < k && j < |names| ensures HadTurn(cfg, trace, steps, i + 1, names[j]) {
      HadTurnGrows(cfg, trace, steps, i, names[j]);
    }
  }

  lemma AttemptTurns(cfg: Config, trace: seq<Sys>, steps: seq<Step>, i: nat)
    requires i < |steps| < |trace| && TurnsOk(cfg, trace, steps, i) && InInitial(trace[i].holder)
    requires var h := trace[i].holder;
             h.index < |h.op.names| && PcName(h.pc) == Some(h.op.names[h.index]) && !h.pc.SkipAt?
             && AttemptMoves(cfg, trace[i], trace[i + 1], steps[i], h.op.names[h.index])
    ensures TurnsOk(cfg, trace, steps, i + 1)
  {
    hide HadTurn, BlockedTurn, PassedAt, LaunchedAt, RefusedAt;
    var h := trace[i].holder;
    var names, n := h.op.names, h.op.names[h.index];
    TurnsGrow(cfg, trace, steps, i, names, h.index);
    HadTurnGrows(cfg, trace, steps, i, n);
  }

  lemma BetweenTurns(cfg: Config, trace: seq<Sys>, steps: seq<Step>, i: nat)
    requires i < |steps| < |trace| && TurnsOk(cfg, trace, steps, i) && InInitial(trace[i].holder)
    requires InitialMoves(cfg, trace[i], trace[i + 1], steps[i])
    requires var h := trace[i].holder; h.pc.InitialNext? || (h.pc.SkipAt? && h.index < |h.op.names| && PcName(h.pc) == Some(h.op.names[h.index]))
    requires steps[i].PickStep? && trace[i + 1].holder.Busy? && trace[i + 1].holder.pc.SkipAt? ==> BlockedTurn(cfg, trace, steps, i + 1, trace[i + 1].holder.pc.name)
    ensures TurnsOk(cfg, trace, steps, i + 1)
  {
    hide HadTurn, BlockedTurn, LaunchedAt, RefusedAt;
    var h := trace[i].holder;
    TurnsGrow(cfg, trace, steps, i, h.op.names, h.index);
    if h.pc.SkipAt? { HadTurnGrows(cfg, trace, steps, i, h.pc.name); }
  }

  lemma TurnsStay(cfg: Config, trace: seq<Sys>, steps: seq<Step>, i: nat)
    requires i < |steps| < |trace| && TurnsOk(cfg, trace, steps, i) && InInitial(trace[i].holder)
    requires SameSpot(trace[i].holder, trace[i + 1].holder) && trace[i].holder.pc.Return?
    ensures TurnsOk(cfg, trace, steps, i + 1)
  {
    hide HadTurn, BlockedTurn;
    TurnsGrow(cfg, trace, steps, i, trace[i].holder.op.names, trace[i].holder.index);
  }

  lemma PickBlocks(cfg: Config, trace: seq<Sys>, steps: seq<Step>, i: nat)
    requires Trace(cfg, trace, steps) && i < |steps| < |trace| && steps[i].PickStep?
    requires trace[i + 1].holder.Busy? && trace[i + 1].holder.pc.SkipAt?
    ensures BlockedTurn(cfg, trace, steps, i + 1, trace[i + 1].holder.pc.name)
  {
    hide Next, Init, Blocked;
    PickDecides(cfg, trace, steps, i);
  }

  lemma TurnsNone(cfg: Config, trace: seq<Sys>, steps: seq<Step>, i: nat)
    requires i <= |steps| < |trace|
    requires InInitial(trace[i].holder) ==> trace[i].holder.index == 0 && trace[i].holder.pc.InitialNext?
    ensures TurnsOk(cfg, trace, steps, i)
  {
    hide HadTurn, BlockedTurn;
  }

  lemma ReturnFrees(cfg: Config, s: Sys, s': Sys)
    requires Next(cfg, s, s', ReturnStep)
    ensures s'.holder.Free?
  {
    hide Next;
    TurnsStep(cfg, s, s', ReturnStep);
    TurnFrame(cfg, s, s', ReturnStep);
  }

  lemma TurnsKeep(cfg: Config, trace: seq<Sys>, steps: seq<Step>, i: nat)
    requires Trace(cfg, trace, steps) && i < |steps| < |trace| && TurnsOk(cfg, trace, steps, i)
    ensures TurnsOk(cfg, trace, steps, i + 1)
  {
    hide Next, Inv, Trace, TurnsOk, InitialMoves, AttemptMoves, BlockedTurn;
    StepOf(cfg, trace, steps, i);
    var s, s', step := trace[i], trace[i + 1], steps[i];
    if !InInitial(s'.holder) {
      TurnsNone(cfg, trace, steps, i + 1);
    } else if !InInitial(s.holder) {
      InitialComes(cfg, s, s', step);
      TurnsNone(cfg, trace, steps, i + 1);
    } else {
      InitialPlace(cfg, s);
      if s.holder.pc.Return? {
        if step.ReturnStep? { ReturnFrees(cfg, s, s'); }
        DoneStays(cfg, s, s', step);
        TurnsStay(cfg, trace, steps, i);
      } else if s.holder.pc.InitialNext? || s.holder.pc.SkipAt? {
        InitialStep(cfg, s, s', step);
        if step.PickStep? && s'.holder.pc.SkipAt? { PickBlocks(cfg, trace, steps, i); }
        BetweenTurns(cfg, trace, steps, i);
      } else {
        AttemptStep(cfg, s, s', step, s.holder.op.names[s.holder.index]);
        AttemptTurns(cfg, trace, steps, i);
      }
    }
  }

  lemma {:induction false} RunTurns(cfg: Config, trace: seq<Sys>, steps: seq<Step>, i: nat)
    requires Trace(cfg, trace, steps) && i <= |steps| < |trace|
    ensures TurnsOk(cfg, trace, steps, i)
  {
    hide Next, TurnsOk;
    if i == 0 {
      TurnsInit(cfg, trace, steps);
    } else {
      RunTurns(cfg, trace, steps, i - 1);
      TurnsKeep(cfg, trace, steps, i - 1);
    }
  }

  lemma TurnsInit(cfg: Config, trace: seq<Sys>, steps: seq<Step>)
    requires |steps| < |trace| && Init(cfg, trace[0])
    ensures TurnsOk(cfg, trace, steps, 0)
  {
    hide HadTurn, BlockedTurn;
  }

  /** The initial start starts everything that can be started: unless cancellation cuts it
      short, it ends with every process launched, refused for a reason, or passed over because
      one of its dependencies was not up when its turn came. */
  lemma InitialStartDecides(cfg: Config, trace: seq<Sys>, steps: seq<Step>, i: nat, n: string)
    requires Trace(cfg, trace, steps) && i < |steps| && steps[i].InitialEndStep? && n in cfg.deps
    ensures |steps| < |trace| && (trace[i].ctxDone || HadTurn(cfg, trace, steps, i, n))
  {
    hide Next, Init, Inv, HadTurn, BlockedTurn;
    InitialEndsForReason(cfg, trace, steps, i);
    RunTurns(cfg, trace, steps, i);
    StepOf(cfg, trace, steps, i);
    NamesAll(cfg, trace[i], n);
  }

  lemma NamesAll(cfg: Config, s: Sys, n: string)
    requires Inv(cfg, s) && InInitial(s.holder) && n in cfg.deps
    ensures n in s.holder.op.names
  {
    hide Units, ConfigOk, DoneOk, DependenciesFirst;
  }

  // ---------- RestartProcess ----------

  /** RestartProcess gives up before it resumes anything: it was refused at once, or a process
      could not be stopped. */
  predicate GivesUpAt(s: Sys, step: Step) {
    s.holder.Busy? && ((step.RestartContextStep? && Shut(s)) || step == StopReturns(false))
  }

  ghost predicate TroubleAt(cfg: Config, s: Sys, step: Step) {
    GivesUpAt(s, step) || exists n :: RefusedAt(cfg, s, step, n)
  }

  ghost predicate GaveUp(trace: seq<Sys>, steps: seq<Step>, i: nat, j: nat)
    requires j <= |steps| < |trace|
  {
    exists m :: i < m < j && GivesUpAt(trace[m], steps[m])
  }

  ghost predicate Trouble(cfg: Config, trace: seq<Sys>, steps: seq<Step>, i: nat, j: nat)
    requires j <= |steps| < |trace|
  {
    exists m :: i < m < j && TroubleAt(cfg, trace[m], steps[m])
  }

  lemma TroubleNext(cfg: Config, trace: seq<Sys>, steps: seq<Step>, i: nat, j: nat)
    requires i < j < |steps| < |trace|
    ensures GaveUp(trace, steps, i, j + 1) <==> GaveUp(trace, steps, i, j) || GivesUpAt(trace[j], steps[j])
    ensures Trouble(cfg, trace, steps, i, j + 1) <==> Trouble(cfg, trace, steps, i, j) || TroubleAt(cfg, trace[j], steps[j])
  {
    hide GivesUpAt, TroubleAt;
  }

  /** Process n was started or refused in this call. */
  ghost predicate Tried(cfg: Config, trace: seq<Sys>, steps: seq<Step>, i: nat, j: nat, n: string)
    requires j <= |steps| < |trace|
  {
    Launched(trace, steps, i, j, n) || Refused(cfg, trace, steps, i, j, n)
  }

  lemma TriedNext(cfg: Config, trace: seq<Sys>, steps: seq<Step>, i: nat, j: nat, n: string)
    requires i < j < |steps| < |trace|
    ensures Tried(cfg, trace, steps, i, j + 1, n) <==>
            Tried(cfg, trace, steps, i, j, n) || LaunchedAt(trace[j], steps[j], n) || RefusedAt(cfg, trace[j], steps[j], n)
  {
    hide Launched, Refused, LaunchedAt, RefusedAt;
    LaunchedNext(trace, steps, i, j, n);
    RefusedNext(cfg, trace, steps, i, j, n);
  }

  /** The restart between two attempts. */
  ghost predicate RestartMoves(s: Sys, s': Sys, step: Step)
    requires s.holder.Busy? && s.holder.op.OpRestart?
  {
    var h, h' := s.holder, s'.holder;
    h'.Busy? &&
    if GivesUpAt(s, step) then
      && h'.failed && h'.op == h.op && (h.pc.RestartContext? || InStop(h.pc))
      && (h'.pc.Return? || h'.pc.StopNext?)
    else
      && h'.failed == h.failed
      && match h.pc
         case RestartContext => h' == h.(pc := h'.pc, outbox := h'.outbox) && (h'.pc.RestartContext? || h'.pc.ResumeRead?)
         case ResumeRead => h' == h.(pc := h'.pc, outbox := h'.outbox, op := h'.op) && h'.op.OpRestart? && h'.op == h.op.(resume := h'.op.resume) && (h'.pc.ResumeRead? || h'.pc.Mark?)
         case Mark => h'.op == h.op && (h'.pc.Mark? || InStop(h'.pc))
         case ResumeNext =>
           && h'.op == h.op
           && (|| SameSpot(h, h')
               || (h.index == 0 && h' == h.(pc := Return))
               || (0 < h.index <= |h.op.order| && h'.index == h.index - 1
                   && if h.op.order[h.index - 1] in h.op.resume then h'.pc == ManualContext(h.op.order[h.index - 1]) else h'.pc.ResumeNext?))
         case _ =>
           InStop(h.pc) ==>
             && h'.op == h.op
             && (|| InStop(h'.pc)
                 || (h'.pc == (if h.failed then Return else ResumeNext) && (!h.failed ==> h'.index == |h.op.order|)))
  }

  predicate Between(pc: Pc) {
    pc.RestartContext? || pc.ResumeRead? || pc.Mark? || InStop(pc) || pc.ResumeNext?
  }

  lemma MoveRestart(cfg: Config, s: Sys, s': Sys, step: Step)
    requires MoveNext(cfg, s, s', step) && s.holder.Busy? && s.holder.op.OpRestart? && Between(s.holder.pc)
    ensures RestartMoves(s, s', step)
  {
    hide AllDone, Startable, HasWaiter, ResumeSet;
  }

  lemma TurnRestart(cfg: Config, s: Sys, s': Sys, step: Step)
    requires TurnNext(cfg, s, s', step) && s.holder.Busy? && s.holder.op.OpRestart? && Between(s.holder.pc)
    ensures RestartMoves(s, s', step)
  {
    hide MarkOne, MarkEvents, Admit, Skip, TurnStopping, LeaveTimer, DepsReady, Startable, Changed, MarkStopped;
  }

  lemma StartNotBetween(cfg: Config, s: Sys, s': Sys, step: Step)
    requires StartNext(cfg, s, s', step)
    ensures s.holder.Busy? && !Between(s.holder.pc)
  {
    hide AllDone, Launch, FailStart, Commit, Changed;
  }

  lemma NotGivesUp(cfg: Config, s: Sys, s': Sys, step: Step)
    requires CommandNext(cfg, s, s', step) || OutputNext(cfg, s, s', step) || EndNext(cfg, s, s', step) || RunNext(cfg, s, s', step)
    requires s.holder.Busy?
    ensures !GivesUpAt(s, step)
  {
    hide CommandNext, OutputNext, EndNext, RunNext;
    if CommandNext(cfg, s, s', step) { CommandWhenFree(cfg, s, s', step); assert false; }
    else if OutputNext(cfg, s, s', step) { OutputKind(cfg, s, s', step); }
    else if EndNext(cfg, s, s', step) { EndsKind(cfg, s, s', step); }
    else { RunKind(cfg, s, s', step); }
  }

  lemma StaysRestart(s: Sys, s': Sys, step: Step)
    requires s.holder.Busy? && s.holder.op.OpRestart? && Between(s.holder.pc) && s'.holder == s.holder && !GivesUpAt(s, step)
    ensures RestartMoves(s, s', step)
  {
  }

  lemma RestartStep(cfg: Config, s: Sys, s': Sys, step: Step)
    requires Next(cfg, s, s', step) && s.holder.Busy? && s.holder.op.OpRestart? && Between(s.holder.pc)
    ensures RestartMoves(s, s', step)
  {
    hide RestartMoves, GivesUpAt, CommandNext, MoveNext, TurnNext, StartNext, OutputNext, EndNext, RunNext;
    if StartNext(cfg, s, s', step) { StartNotBetween(cfg, s, s', step); }
    else if MoveNext(cfg, s, s', step) { MoveRestart(cfg, s, s', step); }
    else if TurnNext(cfg, s, s', step) { TurnRestart(cfg, s, s', step); }
    else { OutsideAttempt(cfg, s, s', step, ""); NotGivesUp(cfg, s, s', step); StaysRestart(s, s', step); }
  }

  lemma GivesUpWhere(cfg: Config, s: Sys, s': Sys, step: Step)
    requires Next(cfg, s, s', step) && GivesUpAt(s, step)
    ensures s.holder.pc.RestartContext? || s.holder.pc.StopWait?
  {
    hide Next, Shut;
    MoveStep(cfg, s, s', step);
    GivesUpPlace(cfg, s, s', step);
  }

  lemma GivesUpPlace(cfg: Config, s: Sys, s': Sys, step: Step)
    requires MoveNext(cfg, s, s', step) && GivesUpAt(s, step)
    ensures s.holder.pc.RestartContext? || s.holder.pc.StopWait?
  {
    hide HasWaiter, TheWaiter;
  }

  lemma TroubleWhere(cfg: Config, s: Sys, s': Sys, step: Step)
    requires Next(cfg, s, s', step) && s.holder.Busy?
    ensures var pc := s.holder.pc;
            && (TroubleAt(cfg, s, step) <==> GivesUpAt(s, step) || (PcName(pc).Some? && RefusedAt(cfg, s, step, PcName(pc).value)))
            && (GivesUpAt(s, step) ==> pc.RestartContext? || pc.StopWait?)
  {
    hide Next, GivesUpAt, RefusedAt;
    if GivesUpAt(s, step) { GivesUpWhere(cfg, s, s', step); }
    if n :| RefusedAt(cfg, s, step, n) { DecidedWhere(cfg, s, step, n); }
  }

  /** Everything to be resumed from place k of the order on has been tried. */
  ghost predicate ResumedFrom(cfg: Config, trace: seq<Sys>, steps: seq<Step>, i: nat, j: nat, op: Op, k: nat)
    requires j <= |steps| < |trace| && op.OpRestart?
  {
    forall x :: k <= x < |op.order| && op.order[x] in op.resume ==> Tried(cfg, trace, steps, i, j, op.order[x])
  }

  /** Where a call of RestartProcess that began at step i stands. */
  ghost predicate RestartOk(cfg: Config, trace: seq<Sys>, steps: seq<Step>, i: nat, j: nat, name: string, order: seq<string>)
    requires j <= |steps| < |trace|
  {
    var h := trace[j].holder;
    && h.Busy? && h.op.OpRestart? && h.op.name == name && h.op.order == order
    && (Trouble(cfg, trace, steps, i, j) <==> h.failed || h.pc.Fail?)
    && (if h.pc.RestartContext? || h.pc.ResumeRead? || h.pc.Mark? || InStop(h.pc) then GaveUp(trace, steps, i, j) <==> h.failed
        else if h.pc.Return? then GaveUp(trace, steps, i, j) || ResumedFrom(cfg, trace, steps, i, j, h.op, 0)
        else if h.pc.ResumeNext? || h.pc.Spawn? || h.pc.Fail? then !GaveUp(trace, steps, i, j) && ResumedFrom(cfg, trace, steps, i, j, h.op, h.index)
        else !GaveUp(trace, steps, i, j) && ResumedFrom(cfg, trace, steps, i, j, h.op, h.index + 1))
  }

  lemma ResumedNext(cfg: Config, trace: seq<Sys>, steps: seq<Step>, i: nat, j: nat, op: Op, k: nat)
    requires i < j < |steps| < |trace| && op.OpRestart? && ResumedFrom(cfg, trace, steps, i, j, op, k)
    ensures ResumedFrom(cfg, trace, steps, i, j + 1, op, k)
  {
    hide Tried;
    forall x | k <= x < |op.order| && op.order[x] in op.resume ensures Tried(cfg, trace, steps, i, j + 1, op.order[x]) {
      TriedNext(cfg, trace, steps, i, j, op.order[x]);
    }
  }

  lemma RestartPlace(cfg: Config, s: Sys)
    requires Inv(cfg, s) && s.holder.Busy? && s.holder.op.OpRestart?
    ensures var h := s.holder;
            Between(h.pc) || h.pc.Return? || (h.index < |h.op.order| && PcName(h.pc) == Some(h.op.order[h.index]) && !h.pc.SkipAt?)
  {
    hide Units, ConfigOk, DoneOk, Covers;
  }

  /** One step of an attempt within a restart. */
  lemma RestartAttempt(cfg: Config, trace: seq<Sys>, steps: seq<Step>, i: nat, j: nat, name: string, order: seq<string>)
    requires i < j < |steps| < |trace| && RestartOk(cfg, trace, steps, i, j, name, order)
    requires var h := trace[j].holder;
             h.index < |h.op.order| && PcName(h.pc) == Some(h.op.order[h.index]) && !h.pc.SkipAt?
             && AttemptMoves(cfg, trace[j], trace[j + 1], steps[j], h.op.order[h.index])
    requires !GivesUpAt(trace[j], steps[j])
    requires TroubleAt(cfg, trace[j], steps[j]) <==> RefusedAt(cfg, trace[j], steps[j], trace[j].holder.op.order[trace[j].holder.index])
    ensures RestartOk(cfg, trace, steps, i, j + 1, name, order)
  {
    hide Tried, LaunchedAt, RefusedAt, GivesUpAt, TroubleAt, GaveUp, Trouble, ResumedFrom;
    var h := trace[j].holder;
    var n := h.op.order[h.index];
    DecidedWhere(cfg, trace[j], steps[j], n);
    TroubleNext(cfg, trace, steps, i, j);
    TriedNext(cfg, trace, steps, i, j, n);
    if h.pc.Spawn? || h.pc.Fail? {
      ResumedNext(cfg, trace, steps, i, j, h.op, h.index);
    } else {
      ResumedNext(cfg, trace, steps, i, j, h.op, h.index + 1);
      if Tried(cfg, trace, steps, i, j + 1, n) { ResumedOne(cfg, trace, steps, i, j + 1, h.op, h.index); }
    }
  }

  lemma ResumedOne(cfg: Config, trace: seq<Sys>, steps: seq<Step>, i: nat, j: nat, op: Op, k: nat)
    requires j <= |steps| < |trace| && op.OpRestart? && k < |op.order| && ResumedFrom(cfg, trace, steps, i, j, op, k + 1)
    requires op.order[k] in op.resume ==> Tried(cfg, trace, steps, i, j, op.order[k])
    ensures ResumedFrom(cfg, trace, steps, i, j, op, k)
  {
    hide Tried;
  }

  /** One step of a restart between attempts. */
  lemma RestartBetween(cfg: Config, trace: seq<Sys>, steps: seq<Step>, i: nat, j: nat, name: string, order: seq<string>)
    requires i < j < |steps| < |trace| && RestartOk(cfg, trace, steps, i, j, name, order)
    requires Between(trace[j].holder.pc) && RestartMoves(trace[j], trace[j + 1], steps[j])
    requires TroubleAt(cfg, trace[j], steps[j]) <==> GivesUpAt(trace[j], steps[j])
    requires GivesUpAt(trace[j], steps[j]) ==> trace[j].holder.pc.RestartContext? || trace[j].holder.pc.StopWait?
    ensures RestartOk(cfg, trace, steps, i, j + 1, name, order)
  {
    hide Tried, GivesUpAt, TroubleAt, GaveUp, Trouble, ResumedFrom;
    var h, h' := trace[j].holder, trace[j + 1].holder;
    TroubleNext(cfg, trace, steps, i, j);
    ResumedEnd(cfg, trace, steps, i, j + 1, h'.op);
    if h.pc.ResumeNext? {
      ResumedNext(cfg, trace, steps, i, j, h.op, h.index);
      if 0 < h.index <= |h.op.order| && h.op.order[h.index - 1] !in h.op.resume { ResumedOne(cfg, trace, steps, i, j + 1, h.op, h.index - 1); }
    }
  }

  lemma ResumedEnd(cfg: Config, trace: seq<Sys>, steps: seq<Step>, i: nat, j: nat, op: Op)
    requires j <= |steps| < |trace|
    ensures op.OpRestart? ==> ResumedFrom(cfg, trace, steps, i, j, op, |op.order|)
  {
  }

  lemma RestartRests(cfg: Config, trace: seq<Sys>, steps: seq<Step>, i: nat, j: nat, name: string, order: seq<string>)
    requires i < j < |steps| < |trace| && RestartOk(cfg, trace, steps, i, j, name, order)
    requires trace[j].holder.pc.Return? && SameSpot(trace[j].holder, trace[j + 1].holder) && !TroubleAt(cfg, trace[j], steps[j])
    ensures RestartOk(cfg, trace, steps, i, j + 1, name, order)
  {
    hide Tried, GivesUpAt, GaveUp, Trouble, ResumedFrom;
    TroubleNext(cfg, trace, steps, i, j);
    if ResumedFrom(cfg, trace, steps, i, j, trace[j].holder.op, 0) { ResumedNext(cfg, trace, steps, i, j, trace[j].holder.op, 0); }
  }

  lemma RestartGoesOn(cfg: Config, trace: seq<Sys>, steps: seq<Step>, i: nat, j: nat, name: string, order: seq<string>)
    requires Trace(cfg, trace, steps) && i < j < |steps| < |trace| && RestartOk(cfg, trace, steps, i, j, name, order)
    requires !steps[j].ReturnStep?
    ensures RestartOk(cfg, trace, steps, i, j + 1, name, order)
  {
    hide Next, Inv, Trace, RestartMoves, AttemptMoves, TroubleAt, RefusedAt, GivesUpAt, ResumedFrom, GaveUp, Trouble;
    StepOf(cfg, trace, steps, j);
    var s, s', step := trace[j], trace[j + 1], steps[j];
    RestartPlace(cfg, s);
    TroubleWhere(cfg, s, s', step);
    if s.holder.pc.Return? {
      DoneStays(cfg, s, s', step);
      RestartRests(cfg, trace, steps, i, j, name, order);
    } else if Between(s.holder.pc) {
      RestartStep(cfg, s, s', step);
      RestartBetween(cfg, trace, steps, i, j, name, order);
    } else {
      AttemptStep(cfg, s, s', step, s.holder.op.order[s.holder.index]);
      RestartAttempt(cfg, trace, steps, i, j, name, order);
    }
  }

  lemma RestartBegins(cfg: Config, s: Sys, s': Sys, name: string, order: seq<string>)
    requires Next(cfg, s, s', RestartCmd(name, order))
    ensures s'.holder == Take(OpRestart(name, order, {}), RestartContext)
  {
    hide Next;
    CommandStep(cfg, s, s', RestartCmd(name, order));
  }

  lemma {:induction false} RestartCall(cfg: Config, trace: seq<Sys>, steps: seq<Step>, i: nat, j: nat)
    requires Trace(cfg, trace, steps) && i < j <= |steps| < |trace| && steps[i].RestartCmd?
    requires forall k :: i < k < j ==> !steps[k].ReturnStep?
    ensures RestartOk(cfg, trace, steps, i, j, steps[i].name, steps[i].order)
    decreases j
  {
    hide Next, Inv, Init, RestartOk;
    StepOf(cfg, trace, steps, i);
    if j == i + 1 {
      RestartBegins(cfg, trace[i], trace[j], steps[i].name, steps[i].order);
      RestartFresh(cfg, trace, steps, i, steps[i].name, steps[i].order);
    } else {
      RestartCall(cfg, trace, steps, i, j - 1);
      RestartGoesOn(cfg, trace, steps, i, j - 1, steps[i].name, steps[i].order);
    }
  }

  lemma RestartFresh(cfg: Config, trace: seq<Sys>, steps: seq<Step>, i: nat, name: string, order: seq<string>)
    requires i < |steps| < |trace| && trace[i + 1].holder == Take(OpRestart(name, order, {}), RestartContext)
    ensures RestartOk(cfg, trace, steps, i, i + 1, name, order)
  {
    hide TroubleAt, GivesUpAt;
  }

  /** By what happened before: x has a live run, is to be restarted, or has never been launched. */
  lemma ActiveMeans(cfg: Config, trace: seq<Sys>, steps: seq<Step>, k: nat, x: string)
    requires Trace(cfg, trace, steps) && k < |steps| && steps[k].ResumeReadStep? && x in cfg.deps
    ensures x in trace[k].core.procs && x in trace[k].waiters
    ensures var p, r := trace[k].core.procs[x], Run(x, trace[k].core.procs[x].gen);
            WasActive(trace[k], x) <==>
              || (HasWaiter(trace[k], r) && Watched(TheWaiter(trace[k], r).phase))
              || p.restarting
              || (p.gen == 0 && p.state.Pending?)
  {
    hide Next, Inv, Init, UnitOk;
    StepOf(cfg, trace, steps, k);
    MoveStep(cfg, trace[k], trace[k + 1], steps[k]);
    KeysHere(cfg, trace[k]);
    UnitOf(cfg, trace[k], x);
    StatesMean(cfg, trace, steps, k, x);
    ReadingElsewhere(cfg, trace[k], trace[k + 1], x);
    WatchedRuns(trace[k], x);
  }

  lemma ReadingElsewhere(cfg: Config, s: Sys, s': Sys, x: string)
    requires MoveNext(cfg, s, s', ResumeReadStep)
    ensures At(s.holder, x).Return?
  {
    hide ResumeSet;
  }

  lemma WatchedRuns(s: Sys, x: string)
    requires x in s.core.procs && x in s.waiters && UnitOk(ViewOf(s, x)) && At(s.holder, x).Return?
    ensures var p := s.core.procs[x]; p.runner.Some? <==> p.gen in s.waiters[x] && Watched(s.waiters[x][p.gen].phase)
  {
    var p := s.core.procs[x];
    if p.gen in s.waiters[x] { assert WaiterOk(p, p.gen, s.waiters[x][p.gen]); }
  }

  /** RestartProcess returns an error exactly if something went wrong, and unless it was refused
      or a stop failed, it has tried to start the named process and every process of the
      order that was active before: each was launched, or refused for a reason. */
  lemma RestartProcessDecides(cfg: Config, trace: seq<Sys>, steps: seq<Step>, i: nat, k: nat, j: nat, x: string)
    requires Trace(cfg, trace, steps) && i < k < j < |steps| && steps[i].RestartCmd? && steps[k] == ResumeReadStep && steps[j].ReturnStep?
    requires forall m :: i < m < j ==> !steps[m].ReturnStep?
    ensures |steps| < |trace| && trace[j].holder.Busy? && (trace[j].holder.failed <==> Trouble(cfg, trace, steps, i, j))
    ensures (x == steps[i].name || (x in steps[i].order && WasActive(trace[k], x))) && !GaveUp(trace, steps, i, j) ==>
              Launched(trace, steps, i, j, x) || Refused(cfg, trace, steps, i, j, x)
  {
    hide Next, Inv, Init, LaunchedAt, RefusedAt, GaveUp, Trouble, Launched, Refused, PastRead, ResumeSet, Covers;
    RestartCall(cfg, trace, steps, i, j);
    StepOf(cfg, trace, steps, j);
    TurnsStep(cfg, trace[j], trace[j + 1], steps[j]);
    ReturnsAtReturn(cfg, trace[j], trace[j + 1]);
    RestartCall(cfg, trace, steps, i, k);
    StepOf(cfg, trace, steps, k);
    ReadStep(cfg, trace[k], trace[k + 1]);
    BusyPast(trace[k + 1].holder);
    SameCall(cfg, trace, steps, k + 1, j);
    OrderCovers(cfg, trace[k]);
    if x == steps[i].name || (x in steps[i].order && WasActive(trace[k], x)) {
      InResume(trace[k].core, steps[i].order, steps[i].name, x);
      var y :| 0 <= y < |steps[i].order| && steps[i].order[y] == x;
    }
  }

  lemma InResume(core: Core, order: seq<string>, name: string, x: string)
    requires x == name || (x in order && x in core.procs && (core.procs[x].runner.Some? || core.procs[x].restarting || core.procs[x].state.Pending?))
    ensures x in ResumeSet(core, order, name)
  {
  }

  // ---------- Nothing is started when a restart gives up ----------

  lemma BetweenBefore(s: Sys, s': Sys, step: Step)
    requires s.holder.Busy? && s.holder.op.OpRestart? && Between(s.holder.pc) && RestartMoves(s, s', step)
    ensures s'.holder.Busy? && (BeforeResume(s'.holder.pc) ==> BeforeResume(s.holder.pc))
  {
    hide GivesUpAt;
  }

  lemma AttemptBefore(cfg: Config, s: Sys, s': Sys, step: Step, n: string)
    requires s.holder.Busy? && s.holder.op.OpRestart? && PcName(s.holder.pc) == Some(n) && AttemptMoves(cfg, s, s', step, n)
    ensures s'.holder.Busy? && !BeforeResume(s'.holder.pc)
  {
    hide RefusedAt, LaunchedAt;
  }

  lemma BeforeStays(cfg: Config, s: Sys, s': Sys, step: Step)
    requires Inv(cfg, s) && Next(cfg, s, s', step) && s.holder.Busy? && s.holder.op.OpRestart? && !step.ReturnStep?
    requires s'.holder.Busy? && BeforeResume(s'.holder.pc)
    ensures BeforeResume(s.holder.pc)
  {
    hide Inv, Next, AttemptMoves, RestartMoves, BeforeResume, Between;
    RestartPlace(cfg, s);
    if s.holder.pc.Return? { DoneStays(cfg, s, s', step); }
    else if Between(s.holder.pc) { RestartStep(cfg, s, s', step); BetweenBefore(s, s', step); }
    else {
      var n := s.holder.op.order[s.holder.index];
      AttemptStep(cfg, s, s', step, n);
      AttemptBefore(cfg, s, s', step, n);
    }
  }

  lemma {:induction false} NoneLaunched(cfg: Config, trace: seq<Sys>, steps: seq<Step>, i: nat, j: nat, x: string)
    requires Trace(cfg, trace, steps) && i < j <= |steps| < |trace| && steps[i].RestartCmd?
    requires forall k :: i < k < j ==> !steps[k].ReturnStep?
    requires trace[j].holder.Busy? && (BeforeResume(trace[j].holder.pc) || GaveUp(trace, steps, i, j))
    ensures !Launched(trace, steps, i, j, x)
    decreases j
  {
    hide Next, Inv, Init, GivesUpAt, LaunchedAt, GaveUp, Trouble, ResumedFrom;
    if j > i + 1 {
      StepOf(cfg, trace, steps, j - 1);
      var s, s', step := trace[j - 1], trace[j], steps[j - 1];
      assert Next(cfg, s, trace[j - 1 + 1], step);
      RestartCall(cfg, trace, steps, i, j - 1);
      TroubleNext(cfg, trace, steps, i, j - 1);
      LaunchedNext(trace, steps, i, j - 1, x);
      DecidedWhere(cfg, s, step, x);
      if GivesUpAt(s, step) { GivesUpWhere(cfg, s, s', step); }
      if BeforeResume(s'.holder.pc) { BeforeStays(cfg, s, s', step); }
      NoneLaunched(cfg, trace, steps, i, j - 1, x);
    } else {
      NothingYet(trace, steps, i, x);
    }
  }

  lemma NothingYet(trace: seq<Sys>, steps: seq<Step>, i: nat, x: string)
    requires i < |steps| < |trace|
    ensures !Launched(trace, steps, i, i + 1, x)
  {
  }

  /** A restart that was refused, or could not stop something, starts nothing. */
  lemma GivingUpLaunchesNothing(cfg: Config, trace: seq<Sys>, steps: seq<Step>, i: nat, j: nat, x: string)
    requires Trace(cfg, trace, steps) && i < j < |steps| && steps[i].RestartCmd? && steps[j].ReturnStep?
    requires forall m :: i < m < j ==> !steps[m].ReturnStep?
    ensures |steps| < |trace| && (GaveUp(trace, steps, i, j) ==> !Launched(trace, steps, i, j, x))
  {
    hide Next, Inv, Init, GaveUp, Launched, RestartOk;
    StepOf(cfg, trace, steps, j);
    TurnsStep(cfg, trace[j], trace[j + 1], steps[j]);
    ReturnsAtReturn(cfg, trace[j], trace[j + 1]);
    if GaveUp(trace, steps, i, j) { NoneLaunched(cfg, trace, steps, i, j, x); }
  }

  // ---------- StopProcess and StopAll ----------

  predicate IsStop(op: Op) {
    op.OpStop? || op.OpStopAll?
  }

  /** Stopping process n went wrong, or its turn came. */
  predicate TurnedAt(s: Sys, step: Step, n: string) {
    (step == TurnStep(n) || step == PassStep(n)) && s.holder.Busy?
  }

  ghost predicate Turned(trace: seq<Sys>, steps: seq<Step>, i: nat, j: nat, n: string)
    requires j <= |steps| < |trace|
  {
    exists m :: i < m < j && TurnedAt(trace[m], steps[m], n)
  }

  ghost predicate StopFailed(trace: seq<Sys>, steps: seq<Step>, i: nat, j: nat)
    requires j <= |steps| < |trace|
  {
    exists m :: i < m < j && StopFailsAt(trace[m], steps[m])
  }

  predicate StopFailsAt(s: Sys, step: Step) {
    step == StopReturns(false) && s.holder.Busy?
  }

  lemma TurnedNext(trace: seq<Sys>, steps: seq<Step>, i: nat, j: nat, n: string)
    requires i < j < |steps| < |trace|
    ensures Turned(trace, steps, i, j + 1, n) <==> Turned(trace, steps, i, j, n) || TurnedAt(trace[j], steps[j], n)
  {
    hide TurnedAt;
  }

  lemma StopFailedNext(trace: seq<Sys>, steps: seq<Step>, i: nat, j: nat)
    requires i < j < |steps| < |trace|
    ensures StopFailed(trace, steps, i, j + 1) <==> StopFailed(trace, steps, i, j) || StopFailsAt(trace[j], steps[j])
  {
    hide StopFailsAt;
  }

  /** A stop, one step on. */
  ghost predicate StopMoves(s: Sys, s': Sys, step: Step)
    requires s.holder.Busy?
  {
    var h, h', order := s.holder, s'.holder, StopList(s.holder.op);
    && h'.Busy? && h'.op == h.op && h'.failed == (h.failed || StopFailsAt(s, step))
    && match h.pc
       case Mark => (h'.pc.Mark? || (h'.pc.StopNext? && h'.index == 0))
       case StopNext =>
         || SameSpot(h, h')
         || (h.index < |order| && step == TurnStep(order[h.index]) && h'.pc.StopWait? && h'.index == h.index)
         || (h.index < |order| && step == PassStep(order[h.index]) && h'.pc.StopNext? && h'.index == h.index + 1)
         || (h.index >= |order| && h'.pc.Return?)
       case StopWait(_, _) => SameSpot(h, h') || (h'.pc.StopJoin? && h'.index == h.index) || (h'.pc.StopNext? && h'.index == h.index + 1)
       case StopJoin(_) => SameSpot(h, h') || (h'.pc.StopNext? && h'.index == h.index + 1)
       case _ => true
  }

  predicate Halting(h: Holder) {
    h.Busy? && IsStop(h.op) && (h.pc.Mark? || InStop(h.pc))
  }

  lemma MoveStop(cfg: Config, s: Sys, s': Sys, step: Step)
    requires MoveNext(cfg, s, s', step) && Halting(s.holder)
    ensures StopMoves(s, s', step)
  {
    hide AllDone, Startable, HasWaiter, ResumeSet;
  }

  lemma TurnStop(cfg: Config, s: Sys, s': Sys, step: Step)
    requires TurnNext(cfg, s, s', step) && Halting(s.holder)
    ensures StopMoves(s, s', step)
  {
    hide MarkOne, MarkEvents, Admit, Skip, TurnStopping, LeaveTimer, DepsReady, Startable, Changed, MarkStopped;
  }

  lemma StartNotHalting(cfg: Config, s: Sys, s': Sys, step: Step)
    requires StartNext(cfg, s, s', step)
    ensures !Halting(s.holder)
  {
    hide AllDone, Launch, FailStart, Commit, Changed;
  }

  lemma NoStopFails(cfg: Config, s: Sys, s': Sys, step: Step)
    requires CommandNext(cfg, s, s', step) || OutputNext(cfg, s, s', step) || EndNext(cfg, s, s', step) || RunNext(cfg, s, s', step)
    requires s.holder.Busy?
    ensures !StopFailsAt(s, step)
  {
    hide CommandNext, OutputNext, EndNext, RunNext;
    if CommandNext(cfg, s, s', step) { CommandWhenFree(cfg, s, s', step); assert false; }
    else if OutputNext(cfg, s, s', step) { OutputKind(cfg, s, s', step); }
    else if EndNext(cfg, s, s', step) { EndsKind(cfg, s, s', step); }
    else { RunKind(cfg, s, s', step); }
  }

  lemma StaysStop(s: Sys, s': Sys, step: Step)
    requires Halting(s.holder) && s'.holder == s.holder && !StopFailsAt(s, step)
    ensures StopMoves(s, s', step)
  {
  }

  lemma StopStep(cfg: Config, s: Sys, s': Sys, step: Step)
    requires Next(cfg, s, s', step) && Halting(s.holder)
    ensures StopMoves(s, s', step)
  {
    hide StopMoves, StopFailsAt, CommandNext, MoveNext, TurnNext, StartNext, OutputNext, EndNext, RunNext;
    if StartNext(cfg, s, s', step) { StartNotHalting(cfg, s, s', step); }
    else if MoveNext(cfg, s, s', step) { MoveStop(cfg, s, s', step); }
    else if TurnNext(cfg, s, s', step) { TurnStop(cfg, s, s', step); }
    else { OutsideAttempt(cfg, s, s', step, ""); NoStopFails(cfg, s, s', step); StaysStop(s, s', step); }
  }

  /** Where a call of StopProcess or StopAll that began at step i stands. */
  ghost predicate StopOk(trace: seq<Sys>, steps: seq<Step>, i: nat, j: nat, order: seq<string>)
    requires j <= |steps| < |trace|
  {
    var h := trace[j].holder;
    && h.Busy? && IsStop(h.op) && StopList(h.op) == order && (h.pc.Mark? || InStop(h.pc) || h.pc.Return?)
    && (StopFailed(trace, steps, i, j) <==> h.failed)
    && (InStop(h.pc) ==> TurnedUpTo(trace, steps, i, j, order, if h.pc.StopNext? then h.index else h.index + 1))
    && (h.pc.Return? ==> TurnedUpTo(trace, steps, i, j, order, |order|))
  }

  ghost predicate TurnedUpTo(trace: seq<Sys>, steps: seq<Step>, i: nat, j: nat, order: seq<string>, k: nat)
    requires j <= |steps| < |trace|
  {
    forall x :: 0 <= x < k && x < |order| ==> Turned(trace, steps, i, j, order[x])
  }

  lemma TurnedGrow(trace: seq<Sys>, steps: seq<Step>, i: nat, j: nat, order: seq<string>, k: nat)
    requires i < j < |steps| < |trace| && TurnedUpTo(trace, steps, i, j, order, k)
    ensures TurnedUpTo(trace, steps, i, j + 1, order, k)
    ensures k < |order| && TurnedAt(trace[j], steps[j], order[k]) ==> TurnedUpTo(trace, steps, i, j + 1, order, k + 1)
  {
    hide Turned, TurnedAt;
    forall x | 0 <= x < k && x < |order| ensures Turned(trace, steps, i, j + 1, order[x]) {
      TurnedNext(trace, steps, i, j, order[x]);
    }
    if k < |order| { TurnedNext(trace, steps, i, j, order[k]); }
  }

  lemma StopGoesOn(cfg: Config, trace: seq<Sys>, steps: seq<Step>, i: nat, j: nat, order: seq<string>)
    requires Trace(cfg, trace, steps) && i < j < |steps| < |trace| && StopOk(trace, steps, i, j, order) && !steps[j].ReturnStep?
    ensures StopOk(trace, steps, i, j + 1, order)
  {
    hide Next, Inv, Trace, Turned, StopFailed, TurnedUpTo;
    StepOf(cfg, trace, steps, j);
    var s, s', step := trace[j], trace[j + 1], steps[j];
    StopFailedNext(trace, steps, i, j);
    if s.holder.pc.Return? {
      DoneStays(cfg, s, s', step);
      TurnedGrow(trace, steps, i, j, order, |order|);
      if StopFailsAt(s, step) { GivesUpWhere(cfg, s, s', step); }
    } else {
      StopStep(cfg, s, s', step);
      if InStop(s.holder.pc) {
        TurnedGrow(trace, steps, i, j, order, if s.holder.pc.StopNext? then s.holder.index else s.holder.index + 1);
        TurnedAll(trace, steps, i, j + 1, order, s.holder.index);
      } else { TurnedNone(trace, steps, i, j + 1, order); }
    }
  }

  lemma TurnedAll(trace: seq<Sys>, steps: seq<Step>, i: nat, j: nat, order: seq<string>, k: nat)
    requires j <= |steps| < |trace|
    ensures TurnedUpTo(trace, steps, i, j, order, k) && k >= |order| ==> TurnedUpTo(trace, steps, i, j, order, |order|)
  {
    hide Turned;
  }

  lemma TurnedNone(trace: seq<Sys>, steps: seq<Step>, i: nat, j: nat, order: seq<string>)
    requires j <= |steps| < |trace|
    ensures TurnedUpTo(trace, steps, i, j, order, 0)
  {
  }

  lemma StopBegins(cfg: Config, trace: seq<Sys>, steps: seq<Step>, i: nat)
    requires i < |steps| < |trace| && (steps[i].StopCmd? || steps[i].StopAllCmd?) && Next(cfg, trace[i], trace[i + 1], steps[i])
    ensures StopOk(trace, steps, i, i + 1, steps[i].order)
  {
    hide Next;
    CommandStep(cfg, trace[i], trace[i + 1], steps[i]);
    StopBegun(cfg, trace[i], trace[i + 1], steps[i]);
  }

  lemma StopBegun(cfg: Config, s: Sys, s': Sys, step: Step)
    requires CommandNext(cfg, s, s', step) && (step.StopCmd? || step.StopAllCmd?)
    ensures s'.holder.Busy? && IsStop(s'.holder.op) && StopList(s'.holder.op) == step.order && s'.holder.pc.Mark? && !s'.holder.failed
    ensures step.StopAllCmd? ==> s'.core.stopping
  {
    hide IsStartOrder, IsFullStopOrder, IsStopOrder;
  }

  lemma {:induction false} StopCall(cfg: Config, trace: seq<Sys>, steps: seq<Step>, i: nat, j: nat)
    requires Trace(cfg, trace, steps) && i < j <= |steps| < |trace| && (steps[i].StopCmd? || steps[i].StopAllCmd?)
    requires forall k :: i < k < j ==> !steps[k].ReturnStep?
    ensures StopOk(trace, steps, i, j, steps[i].order)
    decreases j
  {
    hide Next, Inv, Init, StopOk;
    if j == i + 1 {
      StepOf(cfg, trace, steps, i);
      StopBegins(cfg, trace, steps, i);
    } else {
      StopCall(cfg, trace, steps, i, j - 1);
      StopGoesOn(cfg, trace, steps, i, j - 1, steps[i].order);
    }
  }

  /** StopProcess and StopAll turn to every process they cover, whatever goes wrong on the way,
      and return an error exactly if some process could not be stopped. */
  lemma StopDecides(cfg: Config, trace: seq<Sys>, steps: seq<Step>, i: nat, j: nat, n: string)
    requires Trace(cfg, trace, steps) && i < j < |steps| && (steps[i].StopCmd? || steps[i].StopAllCmd?) && steps[j].ReturnStep?
    requires forall k :: i < k < j ==> !steps[k].ReturnStep?
    ensures |steps| < |trace| && trace[j].holder.Busy?
    ensures trace[j].holder.failed <==> StopFailed(trace, steps, i, j)
    ensures n in steps[i].order ==> Turned(trace, steps, i, j, n)
  {
    hide Next, Inv, Init, StopFailed, Turned;
    StopCall(cfg, trace, steps, i, j);
    StepOf(cfg, trace, steps, j);
    TurnsStep(cfg, trace[j], trace[j + 1], steps[j]);
    ReturnsAtReturn(cfg, trace[j], trace[j + 1]);
    if n in steps[i].order { var x :| 0 <= x < |steps[i].order| && steps[i].order[x] == n; }
  }

  lemma StoppingStays(cfg: Config, s: Sys, s': Sys, step: Step)
    requires Next(cfg, s, s', step) && s.core.stopping
    ensures s'.core.stopping
  {
    hide CommandNext, MoveNext, TurnNext, StartNext, OutputNext, EndNext, RunNext;
    if CommandNext(cfg, s, s', step) { CommandStopping(cfg, s, s', step); }
    else if MoveNext(cfg, s, s', step) { MoveFrame(cfg, s, s', step); }
    else if TurnNext(cfg, s, s', step) { TurnFrame(cfg, s, s', step); }
    else if StartNext(cfg, s, s', step) { StartFrame(cfg, s, s', step); }
    else if OutputNext(cfg, s, s', step) { OutputFrame(cfg, s, s', step); }
    else if EndNext(cfg, s, s', step) { EndFrame(cfg, s, s', step); }
    else { RunFrame(cfg, s, s', step); }
  }

  lemma CommandStopping(cfg: Config, s: Sys, s': Sys, step: Step)
    requires CommandNext(cfg, s, s', step) && s.core.stopping
    ensures s'.core.stopping
  {
    hide IsStartOrder, IsFullStopOrder, IsStopOrder;
  }

  lemma {:induction false} StaysStopping(cfg: Config, trace: seq<Sys>, steps: seq<Step>, i: nat, j: nat)
    requires Trace(cfg, trace, steps) && i <= j < |trace| && trace[i].core.stopping
    ensures trace[j].core.stopping
    decreases j
  {
    hide Next;
    if i < j {
      StaysStopping(cfg, trace, steps, i, j - 1);
      assert Next(cfg, trace[j - 1], trace[j - 1 + 1], steps[j - 1]);
      StoppingStays(cfg, trace[j - 1], trace[j], steps[j - 1]);
    }
  }

  /** After StopAll has begun nothing is launched any more. */
  lemma NothingAfterStopAll(cfg: Config, trace: seq<Sys>, steps: seq<Step>, i: nat, j: nat)
    requires Trace(cfg, trace, steps) && i < j < |steps| && steps[i].StopAllCmd?
    ensures !steps[j].LaunchStep?
  {
    hide Next, Inv, Init;
    StepOf(cfg, trace, steps, i);
    CommandStep(cfg, trace[i], trace[i + 1], steps[i]);
    StopBegun(cfg, trace[i], trace[i + 1], steps[i]);
    StaysStopping(cfg, trace, steps, i + 1, j);
    if steps[j].LaunchStep? { BeginDecides(cfg, trace, steps, j); }
  }
}
