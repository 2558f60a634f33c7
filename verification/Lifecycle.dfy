/** The state that internal/supervisor/supervisor.go guards with its inner lock, and
    what each critical section does to it. Closing a channel twice, or closing one
    that was never made, is recorded as a panic. */
module Lifecycle {
  import opened DependencyGraph
  import opened Options

  datatype PState = Pending | Starting | Running | Stopping | Exited | Failed | Skipped

  predicate Terminal(state: PState) {
    state.Exited? || state.Failed? || state.Skipped?
  }

  datatype Policy = Never | OnFailure | Always

  predicate ShouldRestart(policy: Policy, code: int) {
    policy.Always? || (policy.OnFailure? && code != 0)
  }

  /** What a finished command reports. */
  datatype Outcome = Outcome(code: int, supervisionError: bool)

  datatype Event =
    | StateChanged(process: string, state: PState)
    | Started(process: string)
    | ProcessExited(process: string, state: PState)
    | RestartScheduled(process: string)
    | LogLine(process: string, cursor: nat)
    | ProcessSkipped(process: string)
    | SupervisorError(process: string)
    | SupervisorStopped

  /** processRuntime. A runner, a restart token and a finished channel are identified by
      the generation they were made in; cancelled and closed are the process's cancelled
      tokens and closed finished channels. */
  datatype Proc = Proc(
    state: PState,
    reached: bool,
    stopRequested: bool,
    restarting: bool,
    runner: Option<nat>,
    gen: nat,
    restartCancel: Option<nat>,
    finished: Option<nat>,
    exitCode: Option<int>,
    restarts: nat,
    logged: nat,
    cancelled: set<nat>,
    closed: set<nat>,
    panicked: bool)

  datatype Config = Config(deps: Deps, policy: map<string, Policy>, retains: map<string, bool>, keepRunning: bool)

  ghost predicate ConfigOk(cfg: Config) {
    Valid(cfg.deps) && cfg.policy.Keys == cfg.retains.Keys == cfg.deps.Keys
  }

  /** done is the current completion channel. */
  datatype Core = Core(
    procs: map<string, Proc>,
    idle: bool,
    done: nat,
    closedDone: set<nat>,
    panicked: bool,
    stopping: bool,
    hadFailed: bool)

  const NewProc := Proc(Pending, false, false, false, None, 0, None, None, None, 0, 0, {}, {}, false)

  function NewCore(cfg: Config): Core {
    Core(map n | n in cfg.deps :: NewProc, false, 0, {}, false, false, false)
  }

  function Put(core: Core, n: string, p: Proc): Core {
    core.(procs := core.procs[n := p])
  }

  function Changed(n: string, p: Proc, state: PState): seq<Event> {
    if p.state == state then [] else [StateChanged(n, state)]
  }

  // ---------- What a critical section does to the process it is about ----------

  function CloseFinished(p: Proc, finished: Option<nat>): Proc {
    if finished.None? || finished.value in p.closed then p.(panicked := true)
    else p.(closed := p.closed + {finished.value})
  }

  /** cancelRestartLocked */
  function CancelRestart(p: Proc): Proc {
    p.(restartCancel := None, restarting := false,
       cancelled := if p.restartCancel.Some? then p.cancelled + {p.restartCancel.value} else p.cancelled)
  }

  /** The section of startManual that admits a start. */
  function Admit(p: Proc): Proc {
    CancelRestart(p).(reached := false)
  }

  /** The first section of stopProcesses. */
  function MarkOne(p: Proc): Proc {
    CancelRestart(p).(stopRequested := true, reached := false,
                      state := if p.runner.None? && !Terminal(p.state) then Exited else p.state)
  }

  /** The section of stopProcesses that turns to one process. */
  function TurnStopping(p: Proc): Proc {
    if p.runner.Some? then p.(state := Stopping) else p
  }

  /** startProcess up to the creation of the runner; spec tells whether the command
      specification could be resolved. */
  function Launch(p: Proc, spec: bool): Proc {
    var q := CancelRestart(p).(gen := p.gen + 1, stopRequested := false, exitCode := None, state := Starting);
    if spec then q.(runner := Some(q.gen), finished := Some(q.gen)) else q
  }

  /** The section of startProcess after the command has started. */
  function Commit(p: Proc): Proc {
    p.(reached := true, state := Running)
  }

  predicate ExitRestarts(policy: Policy, p: Proc, stopping: bool, outcome: Outcome) {
    !stopping && !p.stopRequested && !outcome.supervisionError && ShouldRestart(policy, outcome.code)
  }

  function ExitState(p: Proc, outcome: Outcome): PState {
    if !p.stopRequested && (outcome.code != 0 || outcome.supervisionError) then Failed else Exited
  }

  /** The section of waitProcess for the current generation. */
  function Exit(p: Proc, restart: bool, outcome: Outcome): Proc {
    if restart then
      p.(runner := None, exitCode := None, restarts := p.restarts + 1, restarting := true,
         restartCancel := Some(p.gen), state := Pending)
    else
      p.(runner := None, exitCode := Some(outcome.code), state := ExitState(p, outcome))
  }

  function ExitEvents(n: string, p: Proc, restart: bool, outcome: Outcome): seq<Event> {
    var state := ExitState(p, outcome);
    Changed(n, p, state) + [ProcessExited(n, state)]
    + (if outcome.supervisionError then [SupervisorError(n)] else [])
    + if restart then [StateChanged(n, Pending), RestartScheduled(n)] else []
  }

  /** markStartFailed */
  function FailStart(p: Proc): Proc {
    var q := if p.runner.Some? && p.finished.Some? then CloseFinished(p, p.finished) else p;
    q.(exitCode := Some(1), runner := None, restarting := false, stopRequested := false, state := Failed)
  }

  /** skipProcess */
  function Skip(p: Proc): Proc {
    p.(state := Skipped)
  }

  /** The check a fired backoff timer makes before it launches anything. */
  predicate TimerValid(p: Proc, gen: nat, stopping: bool, ctxDone: bool) {
    gen !in p.cancelled && !ctxDone && !stopping && p.gen == gen && p.restarting && !p.stopRequested
  }

  /** The section of forwardLogs: the line enters the buffer and gets its cursor. */
  function AddLog(p: Proc, retains: bool): Proc {
    if retains then p.(logged := p.logged + 1) else p
  }

  function LeaveTimer(p: Proc, gen: nat): Proc {
    p.(cancelled := p.cancelled + {gen})
  }

  // ---------- Sections over all processes ----------

  /** dependenciesReadyLocked */
  ghost predicate DepsReady(cfg: Config, core: Core, n: string) {
    n in cfg.deps && forall d :: d in cfg.deps[n] ==>
      d in core.procs && core.procs[d].reached && !core.procs[d].state.Skipped?
  }

  /** The process may be started by hand: not active and its dependencies are up. */
  ghost predicate Startable(cfg: Config, core: Core, n: string) {
    && n in core.procs
    && core.procs[n].runner.None?
    && (Terminal(core.procs[n].state) || core.procs[n].state.Pending?)
    && DepsReady(cfg, core, n)
  }

  predicate Settled(p: Proc) {
    !p.restarting && Terminal(p.state)
  }

  /** Every process is in a final state and none is waiting to be restarted. */
  ghost predicate AllDone(core: Core) {
    forall n :: n in core.procs ==> Settled(core.procs[n])
  }

  /** The completion channel is closed exactly while the supervisor is idle. */
  ghost predicate DoneOk(core: Core) {
    && (core.idle <==> core.done in core.closedDone)
    && (forall d :: d in core.closedDone ==> d <= core.done)
  }

  /** checkDoneLocked */
  ghost function CheckDone(core: Core): (c: Core)
    ensures c == core.(idle := c.idle, closedDone := c.closedDone, panicked := c.panicked)
    ensures c.idle <==> core.idle || AllDone(core)
    ensures DoneOk(core) ==> DoneOk(c) && c.panicked == core.panicked
  {
    if AllDone(core) && !core.idle then
      if core.done in core.closedDone then core.(idle := true, panicked := true)
      else core.(idle := true, closedDone := core.closedDone + {core.done})
    else core
  }

  function MarkStopped(core: Core, order: seq<string>): Core {
    core.(procs := map n | n in core.procs :: if n in order then MarkOne(core.procs[n]) else core.procs[n])
  }

  function MarkEvent(core: Core, n: string): seq<Event> {
    if n in core.procs && core.procs[n].runner.None? && !Terminal(core.procs[n].state) then [StateChanged(n, Exited)] else []
  }

  function MarkEvents(core: Core, order: seq<string>): seq<Event> {
    if order == [] then []
    else MarkEvents(core, order[..|order| - 1]) + MarkEvent(core, order[|order| - 1])
  }

  predicate Active(p: Proc) {
    p.runner.Some? || p.restarting || p.state.Pending?
  }

  /** The processes RestartProcess brings back. */
  function ResumeSet(core: Core, order: seq<string>, name: string): set<string> {
    {name} + set n | n in order && n in core.procs && Active(core.procs[n])
  }

  /** A launch makes the supervisor busy again: it replaces a closed completion channel. */
  function Busied(core: Core): Core {
    if core.idle then core.(idle := false, done := core.done + 1) else core
  }
}
