/** Dependency safety: as long as a stopped process has not been launched again, nothing
    that depends on it runs, except commands whose own stop is still pending. */
module SupervisorDependencies {
  import opened DependencyGraph
  import opened StopOrder
  import opened Lifecycle
  import opened Options
  import opened SupervisorMachine
  import opened SupervisorUnit
  import opened SupervisorInvariant
  import opened SupervisorEffects

  /** The process is down for its dependents, has no way to come up by itself, is not
      being started, and a command it may still have has been asked to stop. */
  predicate Quiet(p: Proc, at: Pc) {
    && !p.reached && !p.restarting && p.restartCancel.None?
    && (p.runner.Some? ==> p.stopRequested)
    && !at.ManualWait? && !Launchable(at)
  }

  ghost predicate DependentsQuiet(cfg: Config, s: Sys, p: string) {
    forall d :: d in s.core.procs && d != p && Reaches(cfg.deps, d, p) ==> Quiet(s.core.procs[d], At(s.holder, d))
  }

  ghost predicate Held(cfg: Config, s: Sys, p: string) {
    p in s.core.procs && !s.core.procs[p].reached && DependentsQuiet(cfg, s, p)
  }

  ghost predicate Safe(cfg: Config, s: Sys) {
    forall p :: p in s.core.procs && s.core.procs[p].stopRequested ==> Held(cfg, s, p)
  }

  /** A dependent of a held process lacks a dependency. */
  lemma HeldBlocks(cfg: Config, s: Sys, p: string, d: string)
    requires Held(cfg, s, p) && d != p && Reaches(cfg.deps, d, p)
    ensures !DepsReady(cfg, s.core, d)
  {
    hide Reaches, Edge;
    var y := ReachesThrough(cfg.deps, d, p);
    BlockedBy(cfg, s, d, y);
    if y != p && y in s.core.procs {
      assert Quiet(s.core.procs[y], At(s.holder, y));
    }
  }

  lemma BlockedBy(cfg: Config, s: Sys, d: string, y: string)
    requires Edge(cfg.deps, d, y)
    ensures DepsReady(cfg, s.core, d) ==> y in s.core.procs && s.core.procs[y].reached
  {
  }

  /** A waiter that decides about a restart is that of the current run. */
  lemma ExitingRun(cfg: Config, s: Sys, r: Run)
    requires Inv(cfg, s) && HasWaiter(s, r) && TheWaiter(s, r).phase.Done?
    ensures Own(s, r).runner == Some(r.gen) && Own(s, r).gen == r.gen
  {
    hide UnitOk;
    NeverStale(ViewOf(s, r.name), r.gen);
  }

  lemma QuietRecord(cfg: Config, s: Sys, step: Step, d: string)
    requires Inv(cfg, s) && d in s.core.procs && Quiet(s.core.procs[d], At(s.holder, d))
    requires step.AdmitStep? ==> !(At(s.holder, d).ManualGate? && Startable(cfg, s.core, d))
    ensures var p := RecordAfter(cfg, s, step, d);
            !p.reached && !p.restarting && p.restartCancel.None? && (p.runner.Some? ==> p.stopRequested)
  {
    hide Inv, ExitState;
    if step.ExitStep? && HasWaiter(s, step.run) && TheWaiter(s, step.run).phase.Done? {
      ExitingRun(cfg, s, step.run);
    }
  }

  lemma QuietPlace(cfg: Config, s: Sys, s': Sys, step: Step, d: string)
    requires d in s.core.procs && Approached(cfg, s, s', step, d) && Quiet(s.core.procs[d], At(s.holder, d))
    requires !DepsReady(cfg, s.core, d)
    ensures !At(s'.holder, d).ManualWait? && !Launchable(At(s'.holder, d))
    ensures step.AdmitStep? ==> !(At(s.holder, d).ManualGate? && Startable(cfg, s.core, d))
  {
    hide At, DepsReady;
  }

  lemma QuietKeeps(cfg: Config, s: Sys, s': Sys, step: Step, d: string)
    requires Inv(cfg, s) && Next(cfg, s, s', step)
    requires d in s.core.procs && Quiet(s.core.procs[d], At(s.holder, d)) && !DepsReady(cfg, s.core, d)
    ensures d in s'.core.procs && Quiet(s'.core.procs[d], At(s'.holder, d))
  {
    hide Inv, Next, RecordAfter, Approached, DepsReady, At;
    Effects(cfg, s, s', step, d);
    QuietPlace(cfg, s, s', step, d);
    QuietRecord(cfg, s, step, d);
  }

  predicate Commits(s: Sys, step: Step, p: string) {
    step.CommitStep? && At(s.holder, p).CommitAt?
  }

  lemma ReachedRecord(cfg: Config, s: Sys, step: Step, p: string)
    requires p in s.core.procs && RecordAfter(cfg, s, step, p).reached && !s.core.procs[p].reached
    ensures Commits(s, step, p)
  {
    hide ExitState, HasWaiter, TheWaiter, ExitRestarts;
  }

  /** A process is up for its dependents only once it has been launched. */
  lemma ReachedBy(cfg: Config, s: Sys, s': Sys, step: Step, p: string)
    requires Inv(cfg, s) && Next(cfg, s, s', step) && p in s.core.procs
    ensures p in s'.core.procs
    ensures s'.core.procs[p].reached && !s.core.procs[p].reached ==> Commits(s, step, p)
  {
    hide Inv, Next, Approached, RecordAfter, WaitersAfter, Commits;
    Effects(cfg, s, s', step, p);
    if s'.core.procs[p].reached && !s.core.procs[p].reached { ReachedRecord(cfg, s, step, p); }
  }

  lemma KeysKept(cfg: Config, s: Sys, s': Sys, step: Step)
    requires Inv(cfg, s) && Next(cfg, s, s', step)
    ensures s'.core.procs.Keys == s.core.procs.Keys == cfg.deps.Keys
  {
    hide Next, Units;
    NextKeeps(cfg, s, s', step);
  }

  /** Only a launch of the process itself ends its hold on its dependents. */
  lemma HeldKeeps(cfg: Config, s: Sys, s': Sys, step: Step, p: string)
    requires Inv(cfg, s) && Next(cfg, s, s', step) && Held(cfg, s, p) && !Commits(s, step, p)
    ensures Held(cfg, s', p)
  {
    hide Inv, Next, Quiet, Commits, Reaches;
    ReachedBy(cfg, s, s', step, p);
    KeysKept(cfg, s, s', step);
    forall d | d in s'.core.procs && d != p && Reaches(cfg.deps, d, p) ensures Quiet(s'.core.procs[d], At(s'.holder, d)) {
      HeldBlocks(cfg, s, p, d);
      QuietKeeps(cfg, s, s', step, d);
    }
  }

  lemma {:induction false} CoversReach(cfg: Config, order: seq<string>, path: seq<string>)
    requires Covers(cfg, order) && IsPath(cfg.deps, path) && path[|path| - 1] in order
    ensures path[0] in order
    decreases |path|
  {
    if |path| > 1 {
      var rest := path[1..];
      assert Edge(cfg.deps, path[0], path[0 + 1]);
      forall i | 0 <= i < |rest| - 1 ensures Edge(cfg.deps, rest[i], rest[i + 1]) {
        assert Edge(cfg.deps, path[i + 1], path[i + 1 + 1]);
      }
      CoversReach(cfg, order, rest);
    }
  }

  lemma CoversDependents(cfg: Config, order: seq<string>, d: string, p: string)
    requires Covers(cfg, order) && p in order && Reaches(cfg.deps, d, p)
    ensures d in order
  {
    var path :| IsPath(cfg.deps, path) && path[0] == d && path[|path| - 1] == p;
    CoversReach(cfg, order, path);
  }

  lemma MarkCovers(cfg: Config, s: Sys, s': Sys)
    requires Frame(cfg, s) && DoMark(s, s')
    ensures s.holder.Busy? && Covers(cfg, StopList(s.holder.op)) && s'.core.procs.Keys == s.core.procs.Keys
    ensures forall d :: d in s.core.procs && d in StopList(s.holder.op) ==> s'.core.procs[d] == MarkOne(s.core.procs[d]) && At(s'.holder, d).Return?
  {
    hide Covers, MarkOne, DoneOk, ConfigOk, IsStartOrder;
  }

  /** A stop silences everything it covers before it waits for the first command. */
  lemma MarkHolds(cfg: Config, s: Sys, s': Sys, p: string)
    requires Inv(cfg, s) && DoMark(s, s') && s.holder.Busy? && p in s.core.procs && p in StopList(s.holder.op)
    ensures Held(cfg, s', p)
  {
    hide Frame, DoMark, Covers, Reaches, Units, At;
    MarkCovers(cfg, s, s');
    forall d | d in s'.core.procs && d != p && Reaches(cfg.deps, d, p) ensures Quiet(s'.core.procs[d], At(s'.holder, d)) {
      CoversDependents(cfg, StopList(s.holder.op), d, p);
    }
  }

  lemma StopRequestRecord(cfg: Config, s: Sys, step: Step, p: string)
    requires p in s.core.procs && RecordAfter(cfg, s, step, p).stopRequested
    ensures s.core.procs[p].stopRequested || (step.MarkStep? && s.holder.Busy? && p in StopList(s.holder.op))
  {
    hide ExitState, HasWaiter, TheWaiter, ExitRestarts;
  }

  /** Only the marking of a stop requests one, and a stopped process is not launching. */
  lemma StopRequestedBy(cfg: Config, s: Sys, s': Sys, step: Step, p: string)
    requires Inv(cfg, s) && Next(cfg, s, s', step) && p in s'.core.procs && s'.core.procs[p].stopRequested
    ensures p in s.core.procs
    ensures s.core.procs[p].stopRequested || (DoMark(s, s') && s.holder.Busy? && p in StopList(s.holder.op))
    ensures s.core.procs[p].stopRequested ==> !Commits(s, step, p)
  {
    hide Inv, Next, DoMark, RecordAfter, Approached, Commits;
    KeysKept(cfg, s, s', step);
    Effects(cfg, s, s', step, p);
    StopRequestRecord(cfg, s, step, p);
    if step.MarkStep? { MarkOnly(cfg, s, s', step); }
    if s.core.procs[p].stopRequested { StoppedStays(cfg, s, step, p); }
  }

  lemma StoppedStays(cfg: Config, s: Sys, step: Step, p: string)
    requires Inv(cfg, s) && p in s.core.procs && s.core.procs[p].stopRequested
    ensures !Commits(s, step, p)
  {
    hide UnitOk;
    StoppedNotLaunching(ViewOf(s, p));
  }

  lemma StoppedNotLaunching(v: View)
    requires UnitOk(v) && v.p.stopRequested
    ensures !Launching(v.at)
  {
  }

  lemma MarkOnly(cfg: Config, s: Sys, s': Sys, step: Step)
    requires Next(cfg, s, s', step) && step.MarkStep?
    ensures DoMark(s, s')
  {
    hide DoMark;
  }

  lemma SafeKeeps(cfg: Config, s: Sys, s': Sys, step: Step)
    requires Inv(cfg, s) && Safe(cfg, s) && Next(cfg, s, s', step)
    ensures Safe(cfg, s')
  {
    hide Inv, Next, Held, Commits, DoMark;
    forall p | p in s'.core.procs && s'.core.procs[p].stopRequested ensures Held(cfg, s', p) {
      StopRequestedBy(cfg, s, s', step, p);
      if s.core.procs[p].stopRequested {
        HeldKeeps(cfg, s, s', step, p);
      } else {
        MarkHolds(cfg, s, s', p);
      }
    }
  }

  lemma {:induction false} RunIsSafe(cfg: Config, trace: seq<Sys>, steps: seq<Step>, i: nat)
    requires Trace(cfg, trace, steps) && i < |trace|
    ensures Safe(cfg, trace[i])
  {
    hide Next, Inv, Held;
    if i > 0 {
      RunKeeps(cfg, trace, steps, i - 1);
      RunIsSafe(cfg, trace, steps, i - 1);
      assert Next(cfg, trace[i - 1], trace[i - 1 + 1], steps[i - 1]);
      SafeKeeps(cfg, trace[i - 1], trace[i], steps[i - 1]);
    }
  }

  /** Process p is not brought up between two points of a run. */
  ghost predicate NotBroughtUp(trace: seq<Sys>, steps: seq<Step>, i: nat, j: nat, p: string) {
    j <= |steps| < |trace| && forall k :: i <= k < j ==> !Commits(trace[k], steps[k], p)
  }

  lemma {:induction false} HeldUntil(cfg: Config, trace: seq<Sys>, steps: seq<Step>, i: nat, j: nat, p: string)
    requires Trace(cfg, trace, steps) && i <= j && NotBroughtUp(trace, steps, i, j, p) && Held(cfg, trace[i], p)
    ensures Held(cfg, trace[j], p)
    decreases j - i
  {
    hide Next, Inv, Held, Commits;
    if i < j {
      HeldUntil(cfg, trace, steps, i, j - 1, p);
      RunKeeps(cfg, trace, steps, j - 1);
      assert Next(cfg, trace[j - 1], trace[j - 1 + 1], steps[j - 1]);
      HeldKeeps(cfg, trace[j - 1], trace[j], steps[j - 1], p);
    }
  }

  /** Dependency safety, in every interleaving: from the moment a stop of p is requested
      until p has been launched again, every process that depends on p, directly or not,
      is down, has no restart pending, is not being started, and has at most a command
      that has itself been asked to stop. */
  lemma DependencySafety(cfg: Config, trace: seq<Sys>, steps: seq<Step>, i: nat, j: nat, p: string, d: string)
    requires Trace(cfg, trace, steps) && i <= j && NotBroughtUp(trace, steps, i, j, p)
    requires p in trace[i].core.procs && trace[i].core.procs[p].stopRequested
    requires d in cfg.deps && d != p && Reaches(cfg.deps, d, p)
    ensures d in trace[j].core.procs
    ensures var q := trace[j].core.procs[d];
            !q.reached && !q.restarting && q.restartCancel.None? && (q.runner.Some? ==> q.stopRequested)
    ensures trace[j].holder.Busy? ==> trace[j].holder.pc != Begin(d)
    ensures !DepsReady(cfg, trace[j].core, d)
  {
    hide Next, Reaches, Units, Trace;
    TraceLength(cfg, trace, steps);
    RunIsSafe(cfg, trace, steps, i);
    HeldUntil(cfg, trace, steps, i, j, p);
    RunKeeps(cfg, trace, steps, j);
    HeldBlocks(cfg, trace[j], p, d);
    assert Quiet(trace[j].core.procs[d], At(trace[j].holder, d));
  }

  lemma TraceLength(cfg: Config, trace: seq<Sys>, steps: seq<Step>)
    requires Trace(cfg, trace, steps)
    ensures |trace| == |steps| + 1
  {
  }

  // ---------- A start waits for its dependencies ----------

  predicate Up(p: Proc) {
    p.reached && !p.state.Skipped?
  }

  lemma UpRecord(cfg: Config, s: Sys, step: Step, d: string)
    requires d in s.core.procs && Up(s.core.procs[d]) && !step.MarkStep?
    requires !At(s.holder, d).ManualGate? && !At(s.holder, d).SkipAt?
    ensures Up(RecordAfter(cfg, s, step, d))
  {
    hide ExitRestarts, HasWaiter, TheWaiter;
  }

  /** Whoever starts a process, other than a backoff timer, has seen its dependencies up,
      and they are still up. */
  ghost predicate ReadyOk(cfg: Config, s: Sys) {
    s.holder.Busy? && !s.holder.op.OpTimer? && (s.holder.pc.ManualWait? || s.holder.pc.Begin?) ==>
      DepsReady(cfg, s.core, s.holder.pc.name)
  }

  lemma SameOp(cfg: Config, s: Sys, s': Sys, step: Step)
    requires Next(cfg, s, s', step) && s.holder.Busy? && s'.holder.Busy?
    ensures s'.holder.op.OpTimer? <==> s.holder.op.OpTimer?
  {
    hide CommandNext, MoveNext, TurnNext, StartNext, OutputNext, EndNext, RunNext;
    if CommandNext(cfg, s, s', step) { CommandsAtRest(cfg, s, s', step); }
    else if MoveNext(cfg, s, s', step) { MoveFrame(cfg, s, s', step); }
    else if TurnNext(cfg, s, s', step) { TurnFrame(cfg, s, s', step); }
    else if StartNext(cfg, s, s', step) { StartFrame(cfg, s, s', step); }
    else if OutputNext(cfg, s, s', step) { OutputFrame(cfg, s, s', step); }
    else if EndNext(cfg, s, s', step) { EndFrame(cfg, s, s', step); }
    else { RunFrame(cfg, s, s', step); }
  }

  lemma CommandsAtRest(cfg: Config, s: Sys, s': Sys, step: Step)
    requires CommandNext(cfg, s, s', step)
    ensures s.holder.Free?
  {
    hide IsStartOrder, IsFullStopOrder, IsStopOrder;
  }

  lemma TimerStep(cfg: Config, s: Sys, s': Sys, step: Step)
    requires Next(cfg, s, s', step) && step.TimerTake?
    ensures s'.holder.Busy? && s'.holder.op.OpTimer?
  {
    hide TimerValid;
  }

  /** Dependencies that are up stay up while the holder is not stopping, skipping or
      admitting one of them. */
  lemma ReadyStays(cfg: Config, s: Sys, s': Sys, step: Step, n: string)
    requires Inv(cfg, s) && Next(cfg, s, s', step) && DepsReady(cfg, s.core, n) && !step.MarkStep?
    requires forall d :: n in cfg.deps && d in cfg.deps[n] ==> !At(s.holder, d).ManualGate? && !At(s.holder, d).SkipAt?
    ensures DepsReady(cfg, s'.core, n)
  {
    hide Inv, Next, RecordAfter, WaitersAfter, Approached, At;
    forall d | d in cfg.deps[n] ensures d in s'.core.procs && Up(s'.core.procs[d]) {
      Effects(cfg, s, s', step, d);
      UpRecord(cfg, s, step, d);
    }
  }

  lemma NotOwnDependency(cfg: Config, s: Sys, n: string)
    requires Inv(cfg, s) && n in cfg.deps
    ensures n !in cfg.deps[n]
  {
    hide OpOk, DoneOk, Units, Acyclic, Closed, DuplicateFree;
    assert SelfLoopFree(cfg.deps);
    assert !Edge(cfg.deps, n, n);
  }

  lemma ReadyKeeps(cfg: Config, s: Sys, s': Sys, step: Step)
    requires Inv(cfg, s) && ReadyOk(cfg, s) && Next(cfg, s, s', step)
    ensures ReadyOk(cfg, s')
  {
    hide Inv, Next, DepsReady, RecordAfter, WaitersAfter, DoMark;
    if s'.holder.Busy? && !s'.holder.op.OpTimer? && (s'.holder.pc.ManualWait? || s'.holder.pc.Begin?) {
      var n := s'.holder.pc.name;
      HolderKnown(cfg, s, s', step, n);
      Effects(cfg, s, s', step, n);
      NotOwnDependency(cfg, s, n);
      if s.holder.Busy? { SameOp(cfg, s, s', step); }
      if step.TimerTake? { TimerStep(cfg, s, s', step); }
      if step.MarkStep? { MarkPlace(cfg, s, s', step); }
      if step.PickStep? { PickPlace(cfg, s, s', step); }
      ReadyStays(cfg, s, s', step, n);
    }
  }

  lemma HolderKnown(cfg: Config, s: Sys, s': Sys, step: Step, n: string)
    requires Inv(cfg, s) && Next(cfg, s, s', step)
    requires s'.holder.Busy? && (s'.holder.pc == Begin(n) || (s'.holder.pc.ManualWait? && s'.holder.pc.name == n))
    ensures n in s.core.procs && n in cfg.deps
  {
    hide Next, ConfigOk, OpOk, DoneOk, Units;
    NextKeeps(cfg, s, s', step);
    KeysKept(cfg, s, s', step);
  }

  lemma MarkPlace(cfg: Config, s: Sys, s': Sys, step: Step)
    requires Next(cfg, s, s', step) && step.MarkStep?
    ensures s'.holder.Busy? && s'.holder.pc.StopNext?
  {
    hide MarkOne, MarkEvents;
  }

  lemma PickPlace(cfg: Config, s: Sys, s': Sys, step: Step)
    requires Next(cfg, s, s', step) && step.PickStep?
    ensures s.holder.Busy? && s.holder.pc.InitialNext?
  {
    hide DepsReady;
  }

  lemma {:induction false} RunIsReady(cfg: Config, trace: seq<Sys>, steps: seq<Step>, i: nat)
    requires Trace(cfg, trace, steps) && i < |trace|
    ensures ReadyOk(cfg, trace[i])
  {
    hide Next, Inv, DepsReady;
    if i > 0 {
      RunKeeps(cfg, trace, steps, i - 1);
      RunIsReady(cfg, trace, steps, i - 1);
      assert Next(cfg, trace[i - 1], trace[i - 1 + 1], steps[i - 1]);
      ReadyKeeps(cfg, trace[i - 1], trace[i], steps[i - 1]);
    }
  }

  /** depends_on: whenever the initial start, a manual start or a manual restart launches a
      process, every process it depends on has reached running and has not been skipped,
      at that very moment. */
  lemma LaunchWaitsForDependencies(cfg: Config, trace: seq<Sys>, steps: seq<Step>, i: nat, d: string)
    requires Trace(cfg, trace, steps) && i < |steps| && steps[i].LaunchStep?
    ensures trace[i].holder.Busy? && trace[i].holder.pc.Begin?
    ensures var n := trace[i].holder.pc.name;
            n in cfg.deps && d in cfg.deps[n] && !trace[i].holder.op.OpTimer? ==>
              d in trace[i].core.procs && Up(trace[i].core.procs[d])
  {
    hide Next, Init;
    RunIsReady(cfg, trace, steps, i);
    assert Next(cfg, trace[i], trace[i + 1], steps[i]);
    LaunchPlace(cfg, trace[i], trace[i + 1], steps[i]);
  }

  lemma LaunchPlace(cfg: Config, s: Sys, s': Sys, step: Step)
    requires Next(cfg, s, s', step) && step.LaunchStep?
    ensures s.holder.Busy? && s.holder.pc.Begin? && s.holder.pc.name in s.core.procs
    ensures At(s.holder, s.holder.pc.name).Begin?
    ensures !s.core.stopping
  {
    hide Launch;
  }
}
