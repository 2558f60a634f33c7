/** What RestartProcess launches: on a nil return exactly the named process and what was
    active before, each once and after its dependencies; in every case nothing above a
    process it could not bring back. */
module SupervisorRestart {
  import opened DependencyGraph
  import opened StopOrder
  import opened Lifecycle
  import opened Options
  import opened SupervisorMachine
  import opened SupervisorUnit
  import opened SupervisorInvariant
  import opened SupervisorEffects
  import opened SupervisorDependencies
  import opened SupervisorStops
  import opened SupervisorCompletion

  /** What the resume loop is to have launched when it has come down to index i. */
  function Planned(order: seq<string>, resume: set<string>, i: nat): seq<string>
    decreases |order| - i
  {
    if i >= |order| then []
    else if order[i] in resume then Planned(order, resume, i + 1) + [order[i]]
    else Planned(order, resume, i + 1)
  }

  /** The plan holds each process to be resumed once, dependencies first. */
  lemma {:induction false} PlannedMeaning(deps: Deps, order: seq<string>, resume: set<string>, i: nat)
    requires Distinct(order) && DependentsFirst(deps, order) && i <= |order|
    ensures forall x :: x in Planned(order, resume, i) <==> x in order[i..] && x in resume
    ensures Distinct(Planned(order, resume, i)) && DependenciesFirst(deps, Planned(order, resume, i))
    decreases |order| - i
  {
    if i < |order| {
      PlannedMeaning(deps, order, resume, i + 1);
      var rest := Planned(order, resume, i + 1);
      assert order[i..] == [order[i]] + order[i + 1..];
      forall a | 0 <= a < |rest| ensures rest[a] != order[i] && !Edge(deps, rest[a], order[i]) {
        assert rest[a] in order[i + 1..];
        var j :| i + 1 <= j < |order| && order[j] == rest[a];
      }
    }
  }

  predicate BeforeResume(pc: Pc) {
    pc.RestartContext? || pc.ResumeRead? || pc.Mark? || InStop(pc)
  }

  /** How far the plan has been carried out, as long as nothing has failed. */
  predicate PlanOk(h: Holder) {
    h.Busy? && h.op.OpRestart? ==>
      var order, resume := h.op.order, h.op.resume;
      if BeforeResume(h.pc) then h.launched == []
      else if h.pc.ResumeNext? then !h.failed ==> h.launched == Planned(order, resume, h.index)
      else if h.pc.Return? then !h.failed ==> h.launched == Planned(order, resume, 0)
      else
        && h.index < |order| && order[h.index] in resume
        && (h.pc.Spawn? && !h.failed ==> h.launched == Planned(order, resume, h.index))
        && (!h.pc.Spawn? && !h.pc.Fail? && !h.failed ==>
              PcName(h.pc) == Some(order[h.index]) && h.launched == Planned(order, resume, h.index + 1))
  }

  lemma PlannedEmpty(order: seq<string>, resume: set<string>, i: nat)
    requires i >= |order|
    ensures Planned(order, resume, i) == []
  {
  }

  lemma PlannedStep(order: seq<string>, resume: set<string>, i: nat)
    requires i < |order|
    ensures Planned(order, resume, i) == Planned(order, resume, i + 1) + if order[i] in resume then [order[i]] else []
  {
  }

  lemma ResumePlan(cfg: Config, s: Sys, s': Sys)
    requires PlanOk(s.holder) && DoResume(s, s')
    ensures PlanOk(s'.holder)
  {
    hide Planned;
    if s.holder.index > 0 { PlannedStep(s.holder.op.order, s.holder.op.resume, s.holder.index - 1); }
  }

  lemma StopEndPlan(cfg: Config, s: Sys, s': Sys)
    requires PlanOk(s.holder) && DoStopEnd(s, s')
    ensures PlanOk(s'.holder)
  {
    hide Planned, AllDone, DoneOk;
    if s.holder.op.OpRestart? { PlannedEmpty(s.holder.op.order, s.holder.op.resume, |s.holder.op.order|); }
  }

  lemma RejectPlan(cfg: Config, s: Sys, s': Sys)
    requires Frame(cfg, s) && PlanOk(s.holder) && (DoReject(cfg, s, s') || DoContext(s, s'))
    ensures PlanOk(s'.holder)
  {
    hide ConfigOk, Covers, DoneOk, IsStartOrder, Planned, Startable, ContextOk;
  }

  /** Moves before and after the resume loop. */
  lemma OtherMovePlan(cfg: Config, s: Sys, s': Sys, step: Step)
    requires PlanOk(s.holder) && MoveNext(cfg, s, s', step)
    requires !step.ResumeStep? && !step.StopEndStep? && !step.RejectStep? && !step.ContextStep?
    ensures PlanOk(s'.holder)
  {
    hide Planned, AllDone, HasWaiter, ResumeSet, DoResume, DoStopEnd, DoReject, DoContext;
  }

  lemma MovePlan(cfg: Config, s: Sys, s': Sys, step: Step)
    requires Frame(cfg, s) && PlanOk(s.holder) && MoveNext(cfg, s, s', step)
    ensures PlanOk(s'.holder)
  {
    hide Frame, PlanOk, DoResume, DoStopEnd, DoReject, DoContext, DoInitialEnd, DoStopReturns, DoJoin, DoPass,
         DoRestartContext, DoResumeRead;
    match step
    case ResumeStep => ResumePlan(cfg, s, s');
    case StopEndStep => StopEndPlan(cfg, s, s');
    case RejectStep => RejectPlan(cfg, s, s');
    case ContextStep => RejectPlan(cfg, s, s');
    case _ => OtherMovePlan(cfg, s, s', step);
  }

  lemma CommitPlan(cfg: Config, s: Sys, s': Sys)
    requires PlanOk(s.holder) && DoCommit(s, s')
    ensures PlanOk(s'.holder)
  {
    hide Planned, Commit;
    if s.holder.op.OpRestart? { PlannedStep(s.holder.op.order, s.holder.op.resume, s.holder.index); }
  }

  lemma SpawnPlan(cfg: Config, s: Sys, s': Sys)
    requires PlanOk(s.holder) && DoSpawn(s, s')
    ensures PlanOk(s'.holder)
  {
    hide Planned;
  }

  lemma FailPlan(cfg: Config, s: Sys, s': Sys)
    requires PlanOk(s.holder) && DoFail(s, s')
    ensures PlanOk(s'.holder)
  {
    hide Planned, FailStart, AllDone;
  }

  lemma OtherStartPlan(cfg: Config, s: Sys, s': Sys, step: Step)
    requires PlanOk(s.holder) && StartNext(cfg, s, s', step)
    requires !step.CommitStep? && !step.SpawnStep? && !step.FailStep?
    ensures PlanOk(s'.holder)
  {
    hide Planned, Launch, DoCommit, DoSpawn, DoFail;
  }

  lemma StartPlan(cfg: Config, s: Sys, s': Sys, step: Step)
    requires PlanOk(s.holder) && StartNext(cfg, s, s', step)
    ensures PlanOk(s'.holder)
  {
    hide PlanOk, DoCommit, DoSpawn, DoFail, DoWait, DoRefuse, DoLaunch, DoExec;
    match step
    case CommitStep => CommitPlan(cfg, s, s');
    case SpawnStep => SpawnPlan(cfg, s, s');
    case FailStep => FailPlan(cfg, s, s');
    case _ => OtherStartPlan(cfg, s, s', step);
  }

  lemma TurnPlan(cfg: Config, s: Sys, s': Sys, step: Step)
    requires Frame(cfg, s) && PlanOk(s.holder) && TurnNext(cfg, s, s', step)
    ensures PlanOk(s'.holder)
  {
    hide ConfigOk, Covers, DoneOk, IsStartOrder, Planned, MarkOne, MarkEvents, Admit, Skip, TurnStopping,
         LeaveTimer, DepsReady, Startable;
  }

  lemma CommandPlan(cfg: Config, s: Sys, s': Sys, step: Step)
    requires CommandNext(cfg, s, s', step)
    ensures PlanOk(s'.holder)
  {
    hide IsStartOrder, IsFullStopOrder, IsStopOrder;
  }

  lemma PlanKeeps(cfg: Config, s: Sys, s': Sys, step: Step)
    requires Frame(cfg, s) && PlanOk(s.holder) && Next(cfg, s, s', step)
    ensures PlanOk(s'.holder)
  {
    hide Frame, PlanOk, CommandNext, MoveNext, TurnNext, StartNext, OutputNext, EndNext, RunNext;
    if CommandNext(cfg, s, s', step) { CommandPlan(cfg, s, s', step); }
    else if MoveNext(cfg, s, s', step) { MovePlan(cfg, s, s', step); }
    else if TurnNext(cfg, s, s', step) { TurnPlan(cfg, s, s', step); }
    else if StartNext(cfg, s, s', step) { StartPlan(cfg, s, s', step); }
    else if OutputNext(cfg, s, s', step) { OutputFrame(cfg, s, s', step); }
    else if EndNext(cfg, s, s', step) { EndFrame(cfg, s, s', step); TimerPlan(s'.holder, s.holder); }
    else { RunFrame(cfg, s, s', step); }
  }

  lemma TimerPlan(h': Holder, h: Holder)
    requires PlanOk(h) && (h' == h || (h'.Busy? && h'.op.OpTimer?))
    ensures PlanOk(h')
  {
  }

  // ---------- What a restart that fails half-way leaves alone ----------

  /** RestartProcess is in its resume loop. */
  predicate Resuming(h: Holder) {
    h.Busy? && h.op.OpRestart? && (h.pc.ResumeNext? || PcName(h.pc).Some?)
  }

  function Tally(h: Holder, step: Step): seq<string>
    requires h.Busy?
  {
    if step.CommitStep? && h.pc.CommitAt? then h.launched + [h.pc.name] else h.launched
  }

  /** The holder's place and its tally when the resume loop has been entered or goes on. */
  ghost predicate Resumed(s: Sys, s': Sys, step: Step) {
    Resuming(s'.holder) ==>
      && s.holder.Busy? && s.holder.op.OpRestart? && s'.holder.op.order == s.holder.op.order
      && if Resuming(s.holder) then s'.holder.launched == Tally(s.holder, step)
         else s.holder.pc.StopNext? && AfterStop(s'.holder) && !s'.holder.failed && s'.holder.launched == s.holder.launched
  }

  /** launched is only ever extended, by the process that has just come up. */
  ghost predicate Tallied(s: Sys, s': Sys, step: Step) {
    s'.holder.Busy? && s'.holder.op.OpRestart? && s.holder.Busy? ==>
      && s.holder.op.OpRestart? && s'.holder.op.order == s.holder.op.order
      && s'.holder.launched == Tally(s.holder, step)
  }

  lemma MoveTallied(cfg: Config, s: Sys, s': Sys, step: Step)
    requires MoveNext(cfg, s, s', step)
    ensures Tallied(s, s', step)
  {
    hide AllDone, Startable, HasWaiter, ResumeSet;
  }

  lemma MoveResumed(cfg: Config, s: Sys, s': Sys, step: Step)
    requires Frame(cfg, s) && MoveNext(cfg, s, s', step)
    ensures Resumed(s, s', step)
  {
    hide ConfigOk, Covers, DoneOk, IsStartOrder, AllDone, Startable, HasWaiter, ResumeSet;
  }

  lemma StartResumed(cfg: Config, s: Sys, s': Sys, step: Step)
    requires StartNext(cfg, s, s', step)
    ensures Resumed(s, s', step) && Tallied(s, s', step)
  {
    hide AllDone, Launch, FailStart, Commit;
  }

  lemma TurnResumed(cfg: Config, s: Sys, s': Sys, step: Step)
    requires TurnNext(cfg, s, s', step)
    ensures Resumed(s, s', step) && Tallied(s, s', step)
  {
    hide MarkOne, MarkEvents, Admit, Skip, TurnStopping, LeaveTimer, DepsReady, Startable;
  }

  lemma CommandResumed(cfg: Config, s: Sys, s': Sys, step: Step)
    requires CommandNext(cfg, s, s', step)
    ensures Resumed(s, s', step) && Tallied(s, s', step)
    ensures s'.holder.Busy? && s'.holder.op.OpRestart? ==> s'.holder.launched == []
  {
    hide IsStartOrder, IsFullStopOrder, IsStopOrder;
  }

  lemma SameResumed(s: Sys, s': Sys, step: Step)
    requires s'.holder == s.holder || (s.holder.Free? && s'.holder.Busy? && s'.holder.op.OpTimer?)
    requires !step.CommitStep?
    ensures Resumed(s, s', step) && Tallied(s, s', step)
  {
  }

  lemma OtherStep(cfg: Config, s: Sys, s': Sys, step: Step)
    requires OutputNext(cfg, s, s', step) || EndNext(cfg, s, s', step) || RunNext(cfg, s, s', step)
    ensures !step.CommitStep? && !step.ReturnStep? && !step.ResumeReadStep?
  {
    hide HasWaiter, TheWaiter, Ended, TimerValid;
  }

  lemma NextResumed(cfg: Config, s: Sys, s': Sys, step: Step)
    requires Frame(cfg, s) && Next(cfg, s, s', step)
    ensures Resumed(s, s', step) && Tallied(s, s', step)
    ensures s.holder.Free? && s'.holder.Busy? && s'.holder.op.OpRestart? ==> s'.holder.launched == []
  {
    hide Frame, Resumed, Tallied, CommandNext, MoveNext, TurnNext, StartNext, OutputNext, EndNext, RunNext;
    if CommandNext(cfg, s, s', step) { CommandResumed(cfg, s, s', step); }
    else if MoveNext(cfg, s, s', step) {
      MoveTallied(cfg, s, s', step);
      MoveResumed(cfg, s, s', step);
      MoveFrame(cfg, s, s', step);
    }
    else if TurnNext(cfg, s, s', step) { TurnResumed(cfg, s, s', step); TurnFrame(cfg, s, s', step); }
    else if StartNext(cfg, s, s', step) { StartResumed(cfg, s, s', step); StartFrame(cfg, s, s', step); }
    else {
      OtherStep(cfg, s, s', step);
      if OutputNext(cfg, s, s', step) { OutputFrame(cfg, s, s', step); }
      else if EndNext(cfg, s, s', step) { EndFrame(cfg, s, s', step); }
      else { RunFrame(cfg, s, s', step); }
      SameResumed(s, s', step);
    }
  }

  /** Each launched process was launched after all it depends on within the closure. */
  ghost predicate DepsBefore(deps: Deps, order: seq<string>, launched: seq<string>) {
    forall k, d :: 0 <= k < |launched| && d in order && Edge(deps, launched[k], d) ==> d in launched[..k]
  }

  ghost predicate DepsUp(deps: Deps, order: seq<string>, launched: seq<string>, n: string) {
    forall d :: d in order && Edge(deps, n, d) ==> d in launched
  }

  predicate Admitted(pc: Pc) {
    pc.ManualWait? || pc.Begin? || pc.Exec? || pc.CommitAt?
  }

  /** In the resume loop only what this call has launched counts as up. */
  ghost predicate OnlyLaunchedUp(s: Sys) {
    Resuming(s.holder) ==>
      forall x :: x in s.holder.op.order && x in s.core.procs && s.core.procs[x].reached ==> x in s.holder.launched
  }

  ghost predicate DepsOk(cfg: Config, s: Sys) {
    s.holder.Busy? && s.holder.op.OpRestart? ==>
      && DepsBefore(cfg.deps, s.holder.op.order, s.holder.launched)
      && (Admitted(s.holder.pc) ==> DepsUp(cfg.deps, s.holder.op.order, s.holder.launched, s.holder.pc.name))
  }

  lemma StoppedNotUp(cfg: Config, s: Sys, x: string)
    requires Inv(cfg, s) && Stopped(s, x)
    ensures !s.core.procs[x].reached
  {
    hide RunnerOk, RestOk, HolderOk, WaiterOk, NumbersOk, ReservationOk;
    FrameKeys(cfg, s);
    assert UnitOk(ViewOf(s, x));
  }

  lemma UpKeeps(cfg: Config, s: Sys, s': Sys, step: Step)
    requires Inv(cfg, s) && LoopOk(s) && OnlyLaunchedUp(s) && Next(cfg, s, s', step)
    ensures OnlyLaunchedUp(s')
  {
    hide Frame, Units, LoopOk, Next, Stopped, Commits;
    NextResumed(cfg, s, s', step);
    KeysKept(cfg, s, s', step);
    if Resuming(s'.holder) {
      var order := s'.holder.op.order;
      forall x | x in order && x in s'.core.procs && s'.core.procs[x].reached ensures x in s'.holder.launched {
        ReachedBy(cfg, s, s', step, x);
        if Resuming(s.holder) {
          CommitsName(s, step, x);
        } else {
          NextKeeps(cfg, s, s', step);
          LoopKeeps(cfg, s, s', step);
          AfterStopStopped(s', x);
          StoppedNotUp(cfg, s', x);
        }
      }
    }
  }

  lemma CommitsName(s: Sys, step: Step, x: string)
    ensures Commits(s, step, x) ==> step.CommitStep? && s.holder.Busy? && s.holder.pc.CommitAt? && s.holder.pc.name == x
  {
  }

  lemma AfterStopStopped(s: Sys, x: string)
    requires LoopOk(s) && AfterStop(s.holder) && !s.holder.failed && s.holder.op.OpRestart? && x in s.holder.op.order
    ensures Stopped(s, x)
  {
    assert StoppedIdle(s, x);
  }

  /** How the holder of a restart came to be starting a process. */
  ghost predicate Admits(cfg: Config, s: Sys, s': Sys) {
    s.holder.Busy? && s'.holder.Busy? && s'.holder.op.OpRestart? && Admitted(s'.holder.pc) ==>
      || (Admitted(s.holder.pc) && s.holder.pc.name == s'.holder.pc.name)
      || (s.holder.pc == ManualGate(s'.holder.pc.name) && Startable(cfg, s.core, s'.holder.pc.name))
  }

  lemma MoveAdmits(cfg: Config, s: Sys, s': Sys, step: Step)
    requires MoveNext(cfg, s, s', step)
    ensures Admits(cfg, s, s')
  {
    hide AllDone, Startable, HasWaiter, ResumeSet;
  }

  lemma StartAdmits(cfg: Config, s: Sys, s': Sys, step: Step)
    requires StartNext(cfg, s, s', step)
    ensures Admits(cfg, s, s')
  {
    hide AllDone, Launch, FailStart, Commit, Startable;
  }

  lemma TurnAdmits(cfg: Config, s: Sys, s': Sys, step: Step)
    requires TurnNext(cfg, s, s', step)
    ensures Admits(cfg, s, s')
  {
    hide MarkOne, MarkEvents, Admit, Skip, TurnStopping, LeaveTimer, DepsReady, Startable;
  }

  lemma NextAdmits(cfg: Config, s: Sys, s': Sys, step: Step)
    requires Next(cfg, s, s', step)
    ensures Admits(cfg, s, s')
  {
    hide Admits, CommandNext, MoveNext, TurnNext, StartNext, OutputNext, EndNext, RunNext;
    if CommandNext(cfg, s, s', step) { CommandsAtRest(cfg, s, s', step); FreeAdmits(cfg, s, s'); }
    else if MoveNext(cfg, s, s', step) { MoveAdmits(cfg, s, s', step); }
    else if TurnNext(cfg, s, s', step) { TurnAdmits(cfg, s, s', step); }
    else if StartNext(cfg, s, s', step) { StartAdmits(cfg, s, s', step); }
    else {
      if OutputNext(cfg, s, s', step) { OutputFrame(cfg, s, s', step); }
      else if EndNext(cfg, s, s', step) { EndFrame(cfg, s, s', step); }
      else { RunFrame(cfg, s, s', step); }
      FreeAdmits(cfg, s, s');
    }
  }

  lemma FreeAdmits(cfg: Config, s: Sys, s': Sys)
    requires s.holder.Free? || s'.holder == s.holder
    ensures Admits(cfg, s, s')
  {
  }

  lemma ReadyUp(cfg: Config, s: Sys, n: string)
    requires OnlyLaunchedUp(s) && Resuming(s.holder) && Startable(cfg, s.core, n)
    ensures DepsUp(cfg.deps, s.holder.op.order, s.holder.launched, n)
  {
  }

  lemma DepsExtend(deps: Deps, order: seq<string>, launched: seq<string>, n: string)
    requires DepsBefore(deps, order, launched) && DepsUp(deps, order, launched, n)
    ensures DepsBefore(deps, order, launched + [n])
  {
    var all := launched + [n];
    forall k, d | 0 <= k < |all| && d in order && Edge(deps, all[k], d) ensures d in all[..k] {
      if k < |launched| {
        assert all[..k] == launched[..k] && all[k] == launched[k];
      } else {
        assert all[..k] == launched;
      }
    }
  }

  lemma DepsKeep(cfg: Config, s: Sys, s': Sys, step: Step)
    requires Frame(cfg, s) && OnlyLaunchedUp(s) && DepsOk(cfg, s) && Next(cfg, s, s', step)
    ensures DepsOk(cfg, s')
  {
    hide Frame, Next, OnlyLaunchedUp, DepsBefore, DepsUp, Startable, Resumed;
    NextResumed(cfg, s, s', step);
    NextAdmits(cfg, s, s', step);
    if s'.holder.Busy? && s'.holder.op.OpRestart? {
      var order := s'.holder.op.order;
      if s.holder.Free? {
        NothingLaunched(cfg, s, s', step);
      } else {
        if step.CommitStep? && s.holder.pc.CommitAt? {
          DepsExtend(cfg.deps, order, s.holder.launched, s.holder.pc.name);
          CommitLeaves(cfg, s, s', step);
        } else if Admitted(s'.holder.pc) && !Admitted(s.holder.pc) {
          ReadyUp(cfg, s, s'.holder.pc.name);
        }
      }
    }
  }

  lemma NothingLaunched(cfg: Config, s: Sys, s': Sys, step: Step)
    requires Next(cfg, s, s', step) && s.holder.Free? && s'.holder.Busy? && s'.holder.op.OpRestart?
    requires s'.holder.launched == []
    ensures DepsOk(cfg, s')
  {
    hide MoveNext, TurnNext, StartNext, OutputNext, EndNext, RunNext, IsStartOrder, IsFullStopOrder, IsStopOrder;
    if MoveNext(cfg, s, s', step) { MoveFrame(cfg, s, s', step); }
    if TurnNext(cfg, s, s', step) { TurnFrame(cfg, s, s', step); }
    if StartNext(cfg, s, s', step) { StartFrame(cfg, s, s', step); }
    if OutputNext(cfg, s, s', step) { OutputFrame(cfg, s, s', step); }
    if EndNext(cfg, s, s', step) { EndFrame(cfg, s, s', step); }
    if RunNext(cfg, s, s', step) { RunFrame(cfg, s, s', step); }
  }

  lemma CommitLeaves(cfg: Config, s: Sys, s': Sys, step: Step)
    requires Next(cfg, s, s', step) && step.CommitStep?
    ensures s'.holder.Busy? && s'.holder.pc.Spawn?
  {
    hide Commit;
  }

  /** If a process of the closure has not been brought back, nothing that depends on it,
      directly or not, has. */
  lemma {:induction false} NothingAbove(cfg: Config, order: seq<string>, launched: seq<string>, path: seq<string>)
    requires Covers(cfg, order) && DepsBefore(cfg.deps, order, launched)
    requires IsPath(cfg.deps, path) && path[|path| - 1] in order && path[0] in launched
    ensures path[|path| - 1] in launched
    decreases |path|
  {
    if |path| > 1 {
      var rest := path[1..];
      assert Edge(cfg.deps, path[0], path[0 + 1]);
      forall i | 0 <= i < |rest| - 1 ensures Edge(cfg.deps, rest[i], rest[i + 1]) {
        assert Edge(cfg.deps, path[i + 1], path[i + 1 + 1]);
      }
      CoversReach(cfg, order, rest);
      var k :| 0 <= k < |launched| && launched[k] == path[0];
      assert Edge(cfg.deps, launched[k], rest[0]);
      NothingAbove(cfg, order, launched, rest);
    }
  }

  lemma NothingReaches(cfg: Config, order: seq<string>, launched: seq<string>, d: string, y: string)
    requires Covers(cfg, order) && DepsBefore(cfg.deps, order, launched)
    requires Reaches(cfg.deps, d, y) && y in order && d in launched
    ensures y in launched
  {
    hide Covers, DepsBefore, Edge;
    var path :| IsPath(cfg.deps, path) && path[0] == d && path[|path| - 1] == y;
    NothingAbove(cfg, order, launched, path);
  }

  // ---------- Over a whole run ----------

  ghost predicate RestartInv(cfg: Config, s: Sys) {
    Inv(cfg, s) && LoopOk(s) && PlanOk(s.holder) && OnlyLaunchedUp(s) && DepsOk(cfg, s)
  }

  lemma RestartKeeps(cfg: Config, s: Sys, s': Sys, step: Step)
    requires RestartInv(cfg, s) && Next(cfg, s, s', step)
    ensures RestartInv(cfg, s')
  {
    hide Frame, Units, LoopOk, PlanOk, OnlyLaunchedUp, DepsOk, Next;
    NextKeeps(cfg, s, s', step);
    LoopKeeps(cfg, s, s', step);
    PlanKeeps(cfg, s, s', step);
    UpKeeps(cfg, s, s', step);
    DepsKeep(cfg, s, s', step);
  }

  lemma RestartInit(cfg: Config, s: Sys)
    requires Init(cfg, s)
    ensures RestartInv(cfg, s)
  {
    hide Inv;
    InitKeeps(cfg, s);
  }

  lemma {:induction false} RunRestarts(cfg: Config, trace: seq<Sys>, steps: seq<Step>, i: nat)
    requires Trace(cfg, trace, steps) && i < |trace|
    ensures RestartInv(cfg, trace[i])
  {
    hide Init, Next, RestartInv;
    if i == 0 {
      RestartInit(cfg, trace[0]);
    } else {
      RunRestarts(cfg, trace, steps, i - 1);
      assert Next(cfg, trace[i - 1], trace[i - 1 + 1], steps[i - 1]);
      RestartKeeps(cfg, trace[i - 1], trace[i], steps[i - 1]);
    }
  }

  /** In every case, at every point of a restart: if a process of the closure has not been
      brought back, none of its transitive dependents has been launched, nor has one been
      admitted to a launch. */
  lemma RestartInEveryCase(cfg: Config, trace: seq<Sys>, steps: seq<Step>, i: nat, y: string, d: string)
    requires Trace(cfg, trace, steps) && i < |trace| && trace[i].holder.Busy? && trace[i].holder.op.OpRestart?
    requires y in trace[i].holder.op.order && y !in trace[i].holder.launched
    requires d != y && Reaches(cfg.deps, d, y)
    ensures d !in trace[i].holder.launched
    ensures trace[i].holder.pc != Begin(d)
  {
    hide Init, Next, Inv, LoopOk, PlanOk, OnlyLaunchedUp, DepsBefore, Covers, Reaches, Edge;
    RunRestarts(cfg, trace, steps, i);
    OrderCovers(cfg, trace[i]);
    var order, launched := trace[i].holder.op.order, trace[i].holder.launched;
    if d in launched { NothingReaches(cfg, order, launched, d, y); }
    if trace[i].holder.pc == Begin(d) {
      var z := ReachesThrough(cfg.deps, d, y);
      CoversDependents(cfg, order, z, y);
      NothingReaches(cfg, order, launched, z, y);
    }
  }

  lemma OrderCovers(cfg: Config, s: Sys)
    requires Inv(cfg, s) && s.holder.Busy? && s.holder.op.OpRestart?
    ensures Covers(cfg, s.holder.op.order) && s.holder.op.name in s.holder.op.order
  {
    hide Covers, ConfigOk, DoneOk, Units;
  }

  /** A restart that has read what to resume. */
  predicate PastRead(h: Holder) {
    h.Busy? && h.op.OpRestart? && !h.pc.RestartContext? && !h.pc.ResumeRead?
  }

  lemma PastStays(cfg: Config, s: Sys, s': Sys, step: Step)
    requires Next(cfg, s, s', step) && PastRead(s.holder) && !step.ReturnStep?
    ensures PastRead(s'.holder) && s'.holder.op == s.holder.op
  {
    hide CommandNext, MoveNext, TurnNext, StartNext, OutputNext, EndNext, RunNext;
    if CommandNext(cfg, s, s', step) { CommandsAtRest(cfg, s, s', step); }
    else if MoveNext(cfg, s, s', step) { MovePast(cfg, s, s', step); }
    else if TurnNext(cfg, s, s', step) { TurnPast(cfg, s, s', step); }
    else if StartNext(cfg, s, s', step) { StartFrame(cfg, s, s', step); }
    else if OutputNext(cfg, s, s', step) { OutputFrame(cfg, s, s', step); }
    else if EndNext(cfg, s, s', step) { EndFrame(cfg, s, s', step); }
    else { RunFrame(cfg, s, s', step); }
  }

  lemma MovePast(cfg: Config, s: Sys, s': Sys, step: Step)
    requires MoveNext(cfg, s, s', step) && PastRead(s.holder)
    ensures PastRead(s'.holder) && s'.holder.op == s.holder.op
  {
    hide AllDone, Startable, HasWaiter, ResumeSet;
  }

  lemma TurnPast(cfg: Config, s: Sys, s': Sys, step: Step)
    requires TurnNext(cfg, s, s', step) && PastRead(s.holder) && !step.ReturnStep?
    ensures PastRead(s'.holder) && s'.holder.op == s.holder.op
  {
    hide MarkOne, MarkEvents, Admit, Skip, TurnStopping, LeaveTimer, DepsReady, Startable;
  }

  lemma {:induction false} SameCall(cfg: Config, trace: seq<Sys>, steps: seq<Step>, i: nat, j: nat)
    requires Trace(cfg, trace, steps) && i <= j <= |steps| && PastRead(trace[i].holder)
    requires forall k :: i <= k < j ==> !steps[k].ReturnStep?
    ensures PastRead(trace[j].holder) && trace[j].holder.op == trace[i].holder.op
    decreases j - i
  {
    hide Init, Next, PastRead;
    if i < j {
      SameCall(cfg, trace, steps, i, j - 1);
      assert Next(cfg, trace[j - 1], trace[j - 1 + 1], steps[j - 1]);
      BusyPast(trace[j - 1].holder);
      PastStays(cfg, trace[j - 1], trace[j], steps[j - 1]);
      BusyPast(trace[j].holder);
      BusyPast(trace[i].holder);
    } else {
      BusyPast(trace[i].holder);
    }
  }

  lemma BusyPast(h: Holder)
    requires PastRead(h)
    ensures h.Busy?
  {
  }

  lemma ReadStep(cfg: Config, s: Sys, s': Sys)
    requires Next(cfg, s, s', ResumeReadStep)
    ensures s.holder.Busy? && s.holder.op.OpRestart? && PastRead(s'.holder)
    ensures s'.holder.op == s.holder.op.(resume := ResumeSet(s.core, s.holder.op.order, s.holder.op.name))
  {
    hide ResumeSet;
  }

  /** The process was active: running or being stopped, waiting to be restarted, or not yet
      started at all. */
  predicate WasActive(s: Sys, x: string) {
    x in s.core.procs && (s.core.procs[x].runner.Some? || s.core.procs[x].restarting || s.core.procs[x].state.Pending?)
  }

  /** RestartProcess with a nil return has launched exactly the named process and those of
      its transitive dependents that were active when it read their state, each of them
      once and after everything it depends on among them. */
  lemma RestartReturnsNil(cfg: Config, trace: seq<Sys>, steps: seq<Step>, i: nat, j: nat, x: string)
    requires Trace(cfg, trace, steps) && i < j <= |steps| && steps[i] == ResumeReadStep
    requires forall k :: i < k < j ==> !steps[k].ReturnStep?
    requires trace[j].holder.Busy? && trace[j].holder.pc.Return? && !trace[j].holder.failed
    ensures trace[i].holder.Busy? && trace[i].holder.op.OpRestart?
    ensures var op, launched := trace[i].holder.op, trace[j].holder.launched;
            && (x in launched <==> x == op.name || (x in op.order && WasActive(trace[i], x)))
            && Distinct(launched) && DependenciesFirst(cfg.deps, launched)
  {
    hide Init, Next, Inv, LoopOk, OnlyLaunchedUp, DepsOk, Distinct, DependentsFirst, DependenciesFirst;
    assert Next(cfg, trace[i], trace[i + 1], steps[i]);
    ReadStep(cfg, trace[i], trace[i + 1]);
    SameCall(cfg, trace, steps, i + 1, j);
    RunRestarts(cfg, trace, steps, i);
    RunRestarts(cfg, trace, steps, j);
    OrderCovers(cfg, trace[i]);
    var order, resume := trace[j].holder.op.order, trace[j].holder.op.resume;
    PlannedMeaning(cfg.deps, order, resume, 0);
    assert order[0..] == order;
  }
}
