/** What every step of the supervisor keeps: the shape of the lock holder's program, and
    the unit invariant of every process. */
module SupervisorInvariant {
  import opened DependencyGraph
  import opened StopOrder
  import opened Lifecycle
  import opened Options
  import opened SupervisorMachine
  import opened SupervisorUnit

  // ---------- Shape of the holder ----------

  predicate InStop(pc: Pc) {
    pc.StopNext? || pc.StopWait? || pc.StopJoin?
  }

  /** What a stop covers: dependents first, and closed under dependents. */
  ghost predicate Covers(cfg: Config, order: seq<string>) {
    && Distinct(order)
    && DependentsFirst(cfg.deps, order)
    && (forall x :: x in order ==> x in cfg.deps)
    && (forall x, y :: x in order && Edge(cfg.deps, y, x) ==> y in order)
  }

  /** The process the holder's step is about. */
  function PcName(pc: Pc): Option<string> {
    match pc
    case SkipAt(n) => Some(n)
    case ManualContext(n) => Some(n)
    case ManualGate(n) => Some(n)
    case ManualWait(n, _) => Some(n)
    case Begin(n) => Some(n)
    case Exec(n) => Some(n)
    case CommitAt(n) => Some(n)
    case Spawn(n) => Some(n)
    case Fail(n) => Some(n)
    case _ => None
  }

  ghost predicate OpOk(cfg: Config, op: Op, pc: Pc, index: nat) {
    match op
    case OpInitial(names) =>
      && IsStartOrder(cfg, names) && index <= |names|
      && (pc.InitialNext? || pc.Return?
          || (index < |names| && PcName(pc) == Some(names[index]) && (pc.SkipAt? || Launchable(pc))))
    case OpStart(n) => pc.Return? || (PcName(pc) == Some(n) && !pc.SkipAt?)
    case OpStop(order) => Covers(cfg, order) && (pc.Mark? || pc.Return? || (InStop(pc) && index <= |order|))
    case OpStopAll(order, _) => Covers(cfg, order) && (pc.Mark? || pc.Return? || (InStop(pc) && index <= |order|))
    case OpRestart(name, order, _) =>
      && Covers(cfg, order) && name in order
      && (pc.RestartContext? || pc.ResumeRead? || pc.Mark? || pc.Return?
          || ((InStop(pc) || pc.ResumeNext?) && index <= |order|)
          || (index < |order| && PcName(pc) == Some(order[index]) && !pc.SkipAt?))
    case OpTimer(r) => pc.Return? || (PcName(pc) == Some(r.name) && Launchable(pc))
  }

  ghost predicate Frame(cfg: Config, s: Sys) {
    && ConfigOk(cfg)
    && s.core.procs.Keys == s.waiters.Keys == cfg.deps.Keys
    && !s.core.panicked && DoneOk(s.core)
    && (s.holder.Busy? ==>
          && OpOk(cfg, s.holder.op, s.holder.pc, s.holder.index)
          && (PcName(s.holder.pc).Some? && !s.holder.pc.ManualContext? && !s.holder.pc.ManualGate? ==>
                PcName(s.holder.pc).value in s.core.procs)
          && (s.phase.NotCalled? ==>
                && !s.holder.op.OpInitial? && !s.holder.op.OpTimer?
                && (PcName(s.holder.pc).None? || s.holder.pc.ManualContext?)))
  }

  // ---------- The view of one process ----------

  function At(h: Holder, n: string): Pc {
    if h.Busy? && PcName(h.pc) == Some(n) then h.pc else Return
  }

  function TimerOf(h: Holder, n: string): Option<nat> {
    if h.Busy? && h.op.OpTimer? && h.op.run.name == n then Some(h.op.run.gen) else None
  }

  predicate Ahead(s: Sys, n: string) {
    || s.phase.NotCalled?
    || (&& s.holder.Busy? && s.holder.op.OpInitial? && !s.holder.pc.Return?
        && var from := if s.holder.pc.InitialNext? then s.holder.index else s.holder.index + 1;
           from <= |s.holder.op.names| && n in s.holder.op.names[from..])
  }

  function ViewOf(s: Sys, n: string): View
    requires n in s.core.procs && n in s.waiters
  {
    View(s.core.procs[n], s.waiters[n], At(s.holder, n), TimerOf(s.holder, n), Ahead(s, n))
  }

  ghost predicate Units(s: Sys) {
    forall n :: n in s.core.procs && n in s.waiters ==> UnitOk(ViewOf(s, n))
  }

  ghost predicate Inv(cfg: Config, s: Sys) {
    Frame(cfg, s) && Units(s)
  }

  lemma InitKeeps(cfg: Config, s: Sys)
    requires Init(cfg, s)
    ensures Inv(cfg, s)
  {
    forall n | n in s.core.procs && n in s.waiters ensures UnitOk(ViewOf(s, n)) {
      FreshKeeps(ViewOf(s, n));
    }
  }

  // ---------- Steps that only move the holder ----------

  predicate Unengaged(pc: Pc) {
    !Launching(pc) && !pc.Fail?
  }

  ghost predicate Moved(s: Sys, s': Sys) {
    && s'.core.procs == s.core.procs && s'.waiters == s.waiters
    && (s.holder.Busy? ==> Unengaged(s.holder.pc))
    && (s'.holder.Busy? ==> Elsewhere(s'.holder.pc))
    && forall n :: n in s.core.procs ==>
         && (TimerOf(s'.holder, n).Some? ==> TimerOf(s'.holder, n) == TimerOf(s.holder, n))
         && (Ahead(s', n) ==> Ahead(s, n))
  }

  lemma MovedKeeps(s: Sys, s': Sys)
    requires Units(s) && Moved(s, s')
    ensures Units(s')
  {
    hide UnitOk, Ahead, TimerOf;
    forall n | n in s'.core.procs && n in s'.waiters ensures UnitOk(ViewOf(s', n)) {
      var v, v' := ViewOf(s, n), ViewOf(s', n);
      MoveKeeps(v, v'.at, v'.timer, v'.ahead);
      assert v' == v.(at := v'.at, timer := v'.timer, ahead := v'.ahead);
    }
  }

  lemma RunBeginKeeps(cfg: Config, s: Sys, s': Sys, names: seq<string>)
    requires Frame(cfg, s) && DoRunBegin(cfg, s, s', names)
    ensures Frame(cfg, s') && Moved(s, s')
  {
    hide IsStartOrder, ConfigOk, DoneOk;
  }

  lemma StartCmdKeeps(cfg: Config, s: Sys, s': Sys, n: string)
    requires Frame(cfg, s) && DoStartCmd(s, s', n)
    ensures Frame(cfg, s') && Moved(s, s')
  {
    hide ConfigOk, DoneOk;
  }

  lemma StopOrderCovers(cfg: Config, n: string, order: seq<string>)
    requires ConfigOk(cfg) && n in cfg.deps && IsStopOrder(cfg.deps, n, order)
    ensures Covers(cfg, order) && n in order
  {
    hide Valid, Reaches;
    ReachesSelf(cfg.deps, n);
    forall x, y | x in order && Edge(cfg.deps, y, x) ensures y in order {
      StopOrderClosed(cfg.deps, n, order, x, y);
    }
  }

  lemma FullOrderCovers(cfg: Config, order: seq<string>)
    requires IsFullStopOrder(cfg, order)
    ensures Covers(cfg, order)
  {
  }

  lemma StopCmdKeeps(cfg: Config, s: Sys, s': Sys, n: string, order: seq<string>)
    requires Frame(cfg, s) && DoStopCmd(cfg, s, s', n, order)
    ensures Frame(cfg, s') && Moved(s, s')
  {
    hide ConfigOk, DoneOk, Covers, IsStopOrder;
    StopOrderCovers(cfg, n, order);
  }

  lemma RestartCmdKeeps(cfg: Config, s: Sys, s': Sys, n: string, order: seq<string>)
    requires Frame(cfg, s) && DoRestartCmd(cfg, s, s', n, order)
    ensures Frame(cfg, s') && Moved(s, s')
  {
    hide ConfigOk, DoneOk, Covers, IsStopOrder;
    StopOrderCovers(cfg, n, order);
  }

  lemma StopAllCmdKeeps(cfg: Config, s: Sys, s': Sys, order: seq<string>, byRun: bool)
    requires Frame(cfg, s) && DoStopAllCmd(cfg, s, s', order, byRun)
    ensures Frame(cfg, s') && Moved(s, s')
  {
    hide ConfigOk, Covers, IsFullStopOrder;
    FullOrderCovers(cfg, order);
  }

  lemma DoneTakeKeeps(cfg: Config, s: Sys, s': Sys)
    requires Frame(cfg, s) && DoDoneTake(s, s')
    ensures Frame(cfg, s') && Moved(s, s')
  {
    hide ConfigOk;
  }

  lemma StopEndKeeps(cfg: Config, s: Sys, s': Sys)
    requires Frame(cfg, s) && DoStopEnd(s, s')
    ensures Frame(cfg, s') && Moved(s, s')
  {
    hide ConfigOk, Covers, DoneOk, AllDone, IsStartOrder, CheckDone;
  }

  lemma StopReturnsKeeps(cfg: Config, s: Sys, s': Sys, ok: bool)
    requires Frame(cfg, s) && DoStopReturns(s, s', ok)
    ensures Frame(cfg, s') && Moved(s, s')
  {
    hide ConfigOk, Covers, DoneOk, IsStartOrder, HasWaiter, TheWaiter;
  }

  lemma JoinKeeps(cfg: Config, s: Sys, s': Sys)
    requires Frame(cfg, s) && DoJoin(s, s')
    ensures Frame(cfg, s') && Moved(s, s')
  {
    hide ConfigOk, Covers, DoneOk, IsStartOrder;
  }

  lemma RestartContextKeeps(cfg: Config, s: Sys, s': Sys)
    requires Frame(cfg, s) && DoRestartContext(s, s')
    ensures Frame(cfg, s') && Moved(s, s')
  {
    hide ConfigOk, Covers, DoneOk, IsStartOrder;
  }

  lemma ResumeReadKeeps(cfg: Config, s: Sys, s': Sys)
    requires Frame(cfg, s) && DoResumeRead(s, s')
    ensures Frame(cfg, s') && Moved(s, s')
  {
    hide ConfigOk, Covers, DoneOk, IsStartOrder, ResumeSet;
  }

  lemma ResumeKeeps(cfg: Config, s: Sys, s': Sys)
    requires Frame(cfg, s) && DoResume(s, s')
    ensures Frame(cfg, s') && Moved(s, s')
  {
    hide ConfigOk, Covers, DoneOk, IsStartOrder;
  }

  lemma ContextKeeps(cfg: Config, s: Sys, s': Sys)
    requires Frame(cfg, s) && DoContext(s, s')
    ensures Frame(cfg, s') && Moved(s, s')
  {
    hide ConfigOk, Covers, DoneOk, IsStartOrder;
  }

  // ---------- Steps about one process ----------

  /** Nothing the other processes' views show has changed. */
  ghost predicate OnlyAbout(s: Sys, s': Sys, n: string) {
    && s'.core.procs.Keys == s.core.procs.Keys && s'.waiters.Keys == s.waiters.Keys
    && forall m :: m in s.core.procs && m in s.waiters && m != n ==> ViewOf(s', m) == ViewOf(s, m)
  }

  lemma OnlyAboutKeeps(s: Sys, s': Sys, n: string)
    requires Units(s) && OnlyAbout(s, s', n)
    requires n in s'.core.procs && n in s'.waiters ==> UnitOk(ViewOf(s', n))
    ensures Units(s')
  {
    hide UnitOk, ViewOf;
  }

  lemma DistinctNames(cfg: Config, names: seq<string>, i: nat, m: string)
    requires IsStartOrder(cfg, names) && i < |names|
    ensures names[i] !in names[i + 1..]
    ensures m in names[i..] <==> m == names[i] || m in names[i + 1..]
  {
    assert names[i..] == [names[i]] + names[i + 1..];
  }

  /** The initial start leaves a process behind when it turns to it. */
  lemma NotAhead(cfg: Config, s: Sys, n: string)
    requires Frame(cfg, s) && s.holder.Busy? && PcName(s.holder.pc) == Some(n) && !s.holder.pc.ManualContext?
    ensures !Ahead(s, n)
  {
    hide ConfigOk, Covers, IsStartOrder, DoneOk;
    if s.holder.op.OpInitial? { DistinctNames(cfg, s.holder.op.names, s.holder.index, n); }
  }

  /** The holder goes on with a process it is busy with, or lets go of it. */
  ghost predicate Engaged(cfg: Config, s: Sys, s': Sys, n: string) {
    && Frame(cfg, s) && Frame(cfg, s')
    && n in s.core.procs
    && s.holder.Busy? && s'.holder.Busy? && s.phase == s'.phase
    && PcName(s.holder.pc) == Some(n) && !s.holder.pc.ManualContext?
    && s'.holder.op == s.holder.op
    && (if PcName(s'.holder.pc) == Some(n) then !s'.holder.pc.ManualContext? && s'.holder.index == s.holder.index
        else PcName(s'.holder.pc).None?
             && (s.holder.op.OpInitial? ==> s'.holder.pc.InitialNext? && s'.holder.index == s.holder.index + 1))
  }

  lemma EngagedAhead(cfg: Config, s: Sys, s': Sys, n: string)
    requires Engaged(cfg, s, s', n)
    ensures forall m :: Ahead(s', m) <==> Ahead(s, m)
    ensures forall m :: TimerOf(s'.holder, m) == TimerOf(s.holder, m)
    ensures forall m :: m != n ==> At(s'.holder, m) == At(s.holder, m)
  {
    hide ConfigOk, Covers, IsStartOrder, DoneOk;
  }

  lemma EngagedKnown(cfg: Config, s: Sys, s': Sys, n: string)
    requires Engaged(cfg, s, s', n)
    ensures !Ahead(s, n)
    ensures s'.core.procs.Keys == s.core.procs.Keys == s'.waiters.Keys == s.waiters.Keys && n in s.core.procs
  {
    hide ConfigOk, Covers, IsStartOrder, DoneOk, Ahead;
    NotAhead(cfg, s, n);
  }

  lemma EngagedOnly(cfg: Config, s: Sys, s': Sys, n: string)
    requires Engaged(cfg, s, s', n)
    requires forall m :: m in s.core.procs && m != n ==> s'.core.procs[m] == s.core.procs[m]
    requires forall m :: m in s.waiters && m != n ==> s'.waiters[m] == s.waiters[m]
    ensures OnlyAbout(s, s', n) && n in s.core.procs && n in s'.core.procs && n in s'.waiters && !Ahead(s, n)
    ensures !Ahead(s', n)
    ensures TimerOf(s'.holder, n) == TimerOf(s.holder, n)
  {
    hide Engaged, Ahead, TimerOf, At;
    EngagedAhead(cfg, s, s', n);
    EngagedKnown(cfg, s, s', n);
  }

  /** A step on the process the holder is engaged with keeps every unit if it keeps that
      process's. */
  lemma EngagedKeeps(cfg: Config, s: Sys, s': Sys, n: string)
    requires Units(s) && Engaged(cfg, s, s', n)
    requires forall m :: m in s.core.procs && m != n ==> s'.core.procs[m] == s.core.procs[m]
    requires forall m :: m in s.waiters && m != n ==> s'.waiters[m] == s.waiters[m]
    requires n in s'.core.procs && n in s'.waiters ==>
      UnitOk(View(s'.core.procs[n], s'.waiters[n], At(s'.holder, n), TimerOf(s.holder, n), false))
    ensures Inv(cfg, s')
  {
    hide *;
    EngagedOnly(cfg, s, s', n);
    EngagedView(cfg, s, s', n);
    EngagedFrames(cfg, s, s', n);
    OnlyAboutKeeps(s, s', n);
    InvFrom(cfg, s');
  }

  lemma EngagedView(cfg: Config, s: Sys, s': Sys, n: string)
    requires Engaged(cfg, s, s', n) && !Ahead(s', n) && TimerOf(s'.holder, n) == TimerOf(s.holder, n)
    requires n in s'.core.procs && n in s'.waiters
    ensures ViewOf(s', n) == View(s'.core.procs[n], s'.waiters[n], At(s'.holder, n), TimerOf(s.holder, n), false)
  {
  }

  lemma EngagedFrames(cfg: Config, s: Sys, s': Sys, n: string)
    requires Engaged(cfg, s, s', n)
    ensures Frame(cfg, s')
  {
  }

  lemma InvFrom(cfg: Config, s: Sys)
    requires Frame(cfg, s) && Units(s)
    ensures Inv(cfg, s)
  {
  }

  lemma EngagedHere(cfg: Config, s: Sys, s': Sys, n: string)
    requires Engaged(cfg, s, s', n)
    ensures n in s.core.procs && n in s.waiters && !Ahead(s, n)
  {
    hide Frame, Ahead;
    EngagedKnown(cfg, s, s', n);
  }

  lemma SkipStepShape(cfg: Config, s: Sys, s': Sys)
    requires Frame(cfg, s) && DoSkip(s, s')
    ensures Engaged(cfg, s, s', s.holder.pc.name)
  {
    hide ConfigOk, Covers, IsStartOrder, Skip;
  }

  lemma SkipStepKeeps(cfg: Config, s: Sys, s': Sys)
    requires Inv(cfg, s) && DoSkip(s, s')
    ensures Inv(cfg, s')
  {
    hide UnitOk, Frame, Ahead, Engaged, Skip;
    var n := s.holder.pc.name;
    SkipStepShape(cfg, s, s');
    EngagedHere(cfg, s, s', n);
    SkipKeeps(ViewOf(s, n), false);
    EngagedKeeps(cfg, s, s', n);
  }

  lemma WaitStepShape(cfg: Config, s: Sys, s': Sys)
    requires Frame(cfg, s) && DoWait(s, s')
    ensures Engaged(cfg, s, s', s.holder.pc.name) && !s.holder.op.OpTimer?
  {
    hide ConfigOk, Covers, IsStartOrder;
  }

  lemma WaitStepKeeps(cfg: Config, s: Sys, s': Sys)
    requires Inv(cfg, s) && DoWait(s, s')
    ensures Inv(cfg, s')
  {
    hide UnitOk, Frame, Ahead, Engaged;
    var n := s.holder.pc.name;
    WaitStepShape(cfg, s, s');
    EngagedHere(cfg, s, s', n);
    WaitKeeps(ViewOf(s, n), n);
    EngagedKeeps(cfg, s, s', n);
  }

  lemma BusiedDone(core: Core, n: string, p: Proc)
    requires DoneOk(core) && !core.panicked
    ensures var c := Put(Busied(core), n, p);
            DoneOk(c) && !c.panicked && c.procs == core.procs[n := p] && c.stopping == core.stopping
  {
  }

  lemma RefuseShape(cfg: Config, s: Sys, s': Sys)
    requires Frame(cfg, s) && DoRefuse(s, s')
    ensures Engaged(cfg, s, s', s.holder.pc.name)
  {
    hide ConfigOk, Covers, IsStartOrder, DoneOk;
  }

  lemma RefuseStepKeeps(cfg: Config, s: Sys, s': Sys)
    requires Inv(cfg, s) && DoRefuse(s, s')
    ensures Inv(cfg, s')
  {
    hide UnitOk, Frame, Ahead, Engaged;
    var n := s.holder.pc.name;
    RefuseShape(cfg, s, s');
    EngagedHere(cfg, s, s', n);
    RefuseKeeps(ViewOf(s, n), n);
    EngagedKeeps(cfg, s, s', n);
  }

  lemma LaunchShape(cfg: Config, s: Sys, s': Sys, spec: bool)
    requires Frame(cfg, s) && DoLaunch(s, s', spec)
    ensures Engaged(cfg, s, s', s.holder.pc.name)
  {
    hide ConfigOk, Covers, IsStartOrder, Launch, DoneOk, Put, Busied;
    BusiedDone(s.core, s.holder.pc.name, Launch(s.core.procs[s.holder.pc.name], spec));
  }

  lemma LaunchStepKeeps(cfg: Config, s: Sys, s': Sys, spec: bool)
    requires Inv(cfg, s) && DoLaunch(s, s', spec)
    ensures Inv(cfg, s')
  {
    hide UnitOk, Frame, Ahead, Engaged, Launch;
    var n := s.holder.pc.name;
    LaunchShape(cfg, s, s', spec);
    EngagedHere(cfg, s, s', n);
    LaunchKeeps(ViewOf(s, n), n, spec);
    EngagedKeeps(cfg, s, s', n);
  }

  lemma ExecStepShape(cfg: Config, s: Sys, s': Sys, ok: bool)
    requires Frame(cfg, s) && DoExec(s, s', ok)
    ensures Engaged(cfg, s, s', s.holder.pc.name)
  {
    hide ConfigOk, Covers, IsStartOrder;
  }

  lemma ExecStepKeeps(cfg: Config, s: Sys, s': Sys, ok: bool)
    requires Inv(cfg, s) && DoExec(s, s', ok)
    ensures Inv(cfg, s')
  {
    hide UnitOk, Frame, Ahead, Engaged;
    var n := s.holder.pc.name;
    ExecStepShape(cfg, s, s', ok);
    EngagedHere(cfg, s, s', n);
    ExecKeeps(ViewOf(s, n), s'.holder.pc);
    EngagedKeeps(cfg, s, s', n);
  }

  lemma CommitStepShape(cfg: Config, s: Sys, s': Sys)
    requires Frame(cfg, s) && DoCommit(s, s')
    ensures Engaged(cfg, s, s', s.holder.pc.name)
  {
    hide ConfigOk, Covers, IsStartOrder, Commit;
  }

  lemma CommitStepKeeps(cfg: Config, s: Sys, s': Sys)
    requires Inv(cfg, s) && DoCommit(s, s')
    ensures Inv(cfg, s')
  {
    hide UnitOk, Frame, Ahead, Engaged, Commit;
    var n := s.holder.pc.name;
    CommitStepShape(cfg, s, s');
    EngagedHere(cfg, s, s', n);
    CommitKeeps(ViewOf(s, n), n);
    EngagedKeeps(cfg, s, s', n);
  }

  lemma SpawnStepShape(cfg: Config, s: Sys, s': Sys)
    requires Frame(cfg, s) && DoSpawn(s, s')
    ensures Engaged(cfg, s, s', s.holder.pc.name)
  {
    hide ConfigOk, Covers, IsStartOrder;
  }

  lemma SpawnStepKeeps(cfg: Config, s: Sys, s': Sys)
    requires Inv(cfg, s) && DoSpawn(s, s')
    ensures Inv(cfg, s')
  {
    hide UnitOk, Frame, Ahead, Engaged;
    var n := s.holder.pc.name;
    SpawnStepShape(cfg, s, s');
    EngagedHere(cfg, s, s', n);
    SpawnKeeps(ViewOf(s, n));
    EngagedKeeps(cfg, s, s', n);
  }

  lemma FailStepShape(cfg: Config, s: Sys, s': Sys)
    requires Frame(cfg, s) && DoFail(s, s')
    ensures Engaged(cfg, s, s', s.holder.pc.name)
  {
    hide ConfigOk, Covers, IsStartOrder, FailStart, AllDone;
  }

  lemma FailStepKeeps(cfg: Config, s: Sys, s': Sys)
    requires Inv(cfg, s) && DoFail(s, s')
    ensures Inv(cfg, s')
  {
    hide UnitOk, Frame, Ahead, Engaged, FailStart, AllDone;
    var n := s.holder.pc.name;
    FailStepShape(cfg, s, s');
    EngagedHere(cfg, s, s', n);
    FailKeeps(ViewOf(s, n));
    EngagedKeeps(cfg, s, s', n);
  }

  lemma PickShape(cfg: Config, s: Sys, s': Sys, n: string)
    requires Frame(cfg, s) && DoPick(cfg, s, s') && PcName(s'.holder.pc) == Some(n)
    ensures Frame(cfg, s') && n in s.core.procs && n in s.waiters && Ahead(s, n) && !Ahead(s', n)
    ensures forall m :: m != n ==> (Ahead(s', m) <==> Ahead(s, m))
  {
    hide ConfigOk, DepsReady, DoneOk, IsStartOrder;
    var h, names := s.holder, s.holder.op.names;
    forall m ensures Ahead(s', m) <==> Ahead(s, m) && m != n {
      DistinctNames(cfg, names, h.index, m);
    }
    DistinctNames(cfg, names, h.index, n);
    StartOrderKnown(cfg, names, h.index);
  }

  lemma StartOrderKnown(cfg: Config, names: seq<string>, i: nat)
    requires IsStartOrder(cfg, names) && i < |names|
    ensures names[i] in cfg.deps
  {
  }

  lemma PickKeeps(cfg: Config, s: Sys, s': Sys)
    requires Inv(cfg, s) && DoPick(cfg, s, s')
    ensures Inv(cfg, s')
  {
    hide UnitOk, Frame, Ahead, DepsReady;
    var n := s.holder.op.names[s.holder.index];
    PickShape(cfg, s, s', n);
    InitialKeeps(ViewOf(s, n), s'.holder.pc);
    OnlyAboutKeeps(s, s', n);
  }

  lemma InitialEndShape(cfg: Config, s: Sys, s': Sys)
    requires Frame(cfg, s) && DoInitialEnd(s, s')
    ensures Frame(cfg, s') && Moved(s, s')
  {
    hide ConfigOk, DoneOk, IsStartOrder, AllDone, CheckDone;
  }

  // ---------- Steps that change several processes, or none ----------

  lemma MarkShape(cfg: Config, s: Sys, s': Sys)
    requires Frame(cfg, s) && DoMark(s, s')
    ensures Frame(cfg, s')
    ensures forall n :: n in s.core.procs ==>
      && n in s.waiters && n in s'.core.procs && At(s.holder, n).Return? && TimerOf(s.holder, n).None?
      && ViewOf(s', n) == ViewOf(s, n).(p := s'.core.procs[n])
  {
    hide ConfigOk, Covers, DoneOk, MarkOne, IsStartOrder;
    assert s'.core.procs.Keys == s.core.procs.Keys;
    assert DoneOk(s'.core) by { SameDone(s.core, s'.core); }
  }

  lemma SameDone(c: Core, c': Core)
    requires DoneOk(c) && c'.idle == c.idle && c'.done == c.done && c'.closedDone == c.closedDone
    ensures DoneOk(c')
  {
  }

  lemma MarkStepKeeps(cfg: Config, s: Sys, s': Sys)
    requires Inv(cfg, s) && DoMark(s, s')
    ensures Inv(cfg, s')
  {
    hide UnitOk, Frame, Ahead, TimerOf, At, MarkOne, ViewOf;
    MarkShape(cfg, s, s');
    forall n | n in s'.core.procs && n in s'.waiters ensures UnitOk(ViewOf(s', n)) {
      MarkView(s, n);
      MarkKeeps(ViewOf(s, n));
    }
  }

  lemma MarkView(s: Sys, n: string)
    requires n in s.core.procs && n in s.waiters
    ensures ViewOf(s, n).p == s.core.procs[n] && ViewOf(s, n).at == At(s.holder, n)
    ensures ViewOf(s, n).timer == TimerOf(s.holder, n)
  {
  }

  lemma TurnShape(cfg: Config, s: Sys, s': Sys, n: string)
    requires Frame(cfg, s) && DoTurn(s, s', n)
    ensures Frame(cfg, s') && n in s.core.procs && n in s.waiters && At(s.holder, n).Return?
    ensures forall m :: m in s.core.procs ==> Ahead(s', m) == Ahead(s, m)
  {
    hide ConfigOk, Covers, DoneOk, TurnStopping, IsStartOrder;
    SameDone(s.core, s'.core);
  }

  lemma TurnStepKeeps(cfg: Config, s: Sys, s': Sys, n: string)
    requires Inv(cfg, s) && DoTurn(s, s', n)
    ensures Inv(cfg, s')
  {
    hide UnitOk, TurnStopping, Frame, Ahead;
    TurnShape(cfg, s, s', n);
    TurnKeeps(ViewOf(s, n));
    OnlyAboutKeeps(s, s', n);
  }

  lemma PassKeeps(cfg: Config, s: Sys, s': Sys, n: string)
    requires Frame(cfg, s) && DoPass(s, s', n)
    ensures Frame(cfg, s') && Moved(s, s')
  {
    hide ConfigOk, Covers, DoneOk, IsStartOrder;
  }

  lemma AdmitShape(cfg: Config, s: Sys, s': Sys)
    requires Frame(cfg, s) && DoAdmit(cfg, s, s')
    ensures Engaged(cfg, s, s', s.holder.pc.name) && !s.holder.op.OpTimer?
  {
    hide ConfigOk, Covers, DoneOk, Admit, IsStartOrder, DepsReady;
    SameDone(s.core, s'.core);
  }

  lemma AdmitStepKeeps(cfg: Config, s: Sys, s': Sys)
    requires Inv(cfg, s) && DoAdmit(cfg, s, s')
    ensures Inv(cfg, s')
  {
    hide UnitOk, Admit, Frame, Ahead, Engaged, DepsReady;
    var n := s.holder.pc.name;
    AdmitShape(cfg, s, s');
    EngagedHere(cfg, s, s', n);
    AdmitKeeps(ViewOf(s, n), n);
    EngagedKeeps(cfg, s, s', n);
  }

  lemma RejectKeeps(cfg: Config, s: Sys, s': Sys)
    requires Frame(cfg, s) && DoReject(cfg, s, s')
    ensures Frame(cfg, s') && Moved(s, s')
  {
    hide ConfigOk, Covers, DoneOk, IsStartOrder, Startable;
  }

  lemma ReturnShape(cfg: Config, s: Sys, s': Sys)
    requires Frame(cfg, s) && DoReturn(s, s') && !(s.holder.op.OpTimer? && s.holder.op.run.name in s.core.procs)
    ensures Frame(cfg, s') && Moved(s, s')
  {
    hide ConfigOk, Covers, DoneOk, IsStartOrder;
  }

  lemma TimerReturnShape(cfg: Config, s: Sys, s': Sys)
    requires Frame(cfg, s) && DoReturn(s, s') && s.holder.op.OpTimer? && s.holder.op.run.name in s.core.procs
    ensures Frame(cfg, s')
    ensures var n := s.holder.op.run.name;
            && OnlyAbout(s, s', n) && n in s.waiters && n in s'.waiters && n in s'.core.procs
            && s'.waiters[n] == s.waiters[n] && s'.core.procs[n] == LeaveTimer(s.core.procs[n], s.holder.op.run.gen)
  {
    hide ConfigOk, Covers, DoneOk, IsStartOrder, LeaveTimer;
    SameDone(s.core, s'.core);
  }

  lemma ReturnStepKeeps(cfg: Config, s: Sys, s': Sys)
    requires Inv(cfg, s) && DoReturn(s, s')
    ensures Inv(cfg, s')
  {
    hide UnitOk, LeaveTimer, Frame, Moved, OnlyAbout;
    if s.holder.op.OpTimer? && s.holder.op.run.name in s.core.procs {
      var n := s.holder.op.run.name;
      TimerReturnShape(cfg, s, s');
      LeaveKeeps(ViewOf(s, n));
      MoveKeeps(ViewOf(s, n).(p := s'.core.procs[n]), Return, None, Ahead(s', n));
      OnlyAboutKeeps(s, s', n);
    } else {
      ReturnShape(cfg, s, s');
      MovedKeeps(s, s');
    }
  }

  lemma SendKeeps(cfg: Config, s: Sys, s': Sys)
    requires Inv(cfg, s) && DoHolderEmit(s, s')
    ensures Inv(cfg, s')
  {
    hide ConfigOk, UnitOk, Covers, DoneOk, IsStartOrder;
    forall n | n in s'.core.procs && n in s'.waiters ensures ViewOf(s', n) == ViewOf(s, n) {
    }
  }

  /** Run and the environment. */
  lemma StillKeeps(cfg: Config, s: Sys, s': Sys)
    requires Inv(cfg, s) && s'.core == s.core && s'.holder == s.holder && s'.waiters == s.waiters
    requires s'.phase.NotCalled? <==> s.phase.NotCalled?
    ensures Inv(cfg, s')
  {
    hide ConfigOk, UnitOk, OpOk, DoneOk, IsStartOrder;
    forall n | n in s'.core.procs && n in s'.waiters ensures ViewOf(s', n) == ViewOf(s, n) {
    }
  }

  // ---------- Steps of waiters ----------

  /** A step that concerns one process and not the lock holder. */
  ghost predicate Beside(s: Sys, s': Sys, n: string) {
    && n in s.core.procs && n in s.waiters && n in s'.core.procs && n in s'.waiters
    && s'.holder == s.holder && s'.phase == s.phase
    && s'.core.procs.Keys == s.core.procs.Keys && s'.waiters.Keys == s.waiters.Keys
    && (forall m :: m in s.core.procs && m != n ==> s'.core.procs[m] == s.core.procs[m])
    && (forall m :: m in s.waiters && m != n ==> s'.waiters[m] == s.waiters[m])
    && (DoneOk(s.core) && !s.core.panicked ==> DoneOk(s'.core) && !s'.core.panicked)
  }

  lemma BesideShape(cfg: Config, s: Sys, s': Sys, n: string)
    requires Frame(cfg, s) && Beside(s, s', n)
    ensures Frame(cfg, s') && OnlyAbout(s, s', n)
    ensures ViewOf(s', n) == ViewOf(s, n).(p := s'.core.procs[n], ws := s'.waiters[n])
  {
    hide ConfigOk, OpOk, DoneOk;
  }

  lemma BesideKeeps(cfg: Config, s: Sys, s': Sys, n: string)
    requires Inv(cfg, s) && Beside(s, s', n)
    requires UnitOk(ViewOf(s, n).(p := s'.core.procs[n], ws := s'.waiters[n]))
    ensures Inv(cfg, s')
  {
    hide UnitOk, Frame, ViewOf, Beside, OnlyAbout;
    BesideShape(cfg, s, s', n);
    OnlyAboutKeeps(s, s', n);
  }

  lemma WaiterEmitKeeps(cfg: Config, s: Sys, s': Sys, r: Run)
    requires Inv(cfg, s) && DoWaiterEmit(s, s', r)
    ensures Inv(cfg, s')
  {
    hide UnitOk, Frame, DoneOk, At, TimerOf, Ahead;
    UpdateKeeps(ViewOf(s, r.name), r.gen, s'.waiters[r.name][r.gen]);
    BesideKeeps(cfg, s, s', r.name);
  }

  lemma ForwardEmitKeeps(cfg: Config, s: Sys, s': Sys, r: Run)
    requires Inv(cfg, s) && DoForwardEmit(s, s', r)
    ensures Inv(cfg, s')
  {
    hide UnitOk, Frame, DoneOk, At, TimerOf, Ahead;
    UpdateKeeps(ViewOf(s, r.name), r.gen, s'.waiters[r.name][r.gen]);
    BesideKeeps(cfg, s, s', r.name);
  }

  lemma OutputKeeps(cfg: Config, s: Sys, s': Sys, r: Run)
    requires Inv(cfg, s) && DoOutput(s, s', r)
    ensures Inv(cfg, s')
  {
    hide UnitOk, Frame, DoneOk, At, TimerOf, Ahead;
    UpdateKeeps(ViewOf(s, r.name), r.gen, s'.waiters[r.name][r.gen]);
    BesideKeeps(cfg, s, s', r.name);
  }

  lemma ProcessExitKeeps(cfg: Config, s: Sys, s': Sys, r: Run, outcome: Outcome)
    requires Inv(cfg, s) && DoProcessExit(s, s', r, outcome)
    ensures Inv(cfg, s')
  {
    hide UnitOk, Frame, DoneOk, At, TimerOf, Ahead;
    UpdateKeeps(ViewOf(s, r.name), r.gen, s'.waiters[r.name][r.gen]);
    BesideKeeps(cfg, s, s', r.name);
  }

  lemma TimerFiresKeeps(cfg: Config, s: Sys, s': Sys, r: Run)
    requires Inv(cfg, s) && DoTimerFires(s, s', r)
    ensures Inv(cfg, s')
  {
    hide UnitOk, Frame, DoneOk, At, TimerOf, Ahead;
    UpdateKeeps(ViewOf(s, r.name), r.gen, s'.waiters[r.name][r.gen]);
    BesideKeeps(cfg, s, s', r.name);
  }

  lemma SameProcs(c: Core, n: string, p: Proc)
    requires DoneOk(c) && !c.panicked
    ensures DoneOk(Put(c, n, p)) && !Put(c, n, p).panicked
  {
  }

  lemma ForwardAddKeeps(cfg: Config, s: Sys, s': Sys, r: Run)
    requires Inv(cfg, s) && DoForwardAdd(cfg, s, s', r)
    ensures Inv(cfg, s')
  {
    hide UnitOk, ConfigOk, DoneOk, At, TimerOf, Ahead, OpOk, AddLog;
    SameProcs(s.core, r.name, s'.core.procs[r.name]);
    AddKeeps(ViewOf(s, r.name), r.gen, s'.waiters[r.name][r.gen], cfg.retains[r.name]);
    BesideKeeps(cfg, s, s', r.name);
  }

  lemma ExitShape(cfg: Config, s: Sys, s': Sys, r: Run)
    requires Frame(cfg, s) && DoExit(cfg, s, s', r)
    ensures Beside(s, s', r.name)
    ensures var p, outcome, w := Own(s, r), TheWaiter(s, r).phase.outcome, TheWaiter(s, r);
            var restart := ExitRestarts(cfg.policy[r.name], p, s.core.stopping, outcome);
            && s'.core.procs[r.name] == Exit(p, restart, outcome)
            && var w' := w.(phase := Publishing(restart, p.finished), outbox := ExitEvents(r.name, p, restart, outcome));
            s'.waiters[r.name] == s.waiters[r.name][r.gen := w']
  {
    hide ConfigOk, OpOk, AllDone, Exit, ExitEvents, ExitRestarts, ExitState;
  }

  lemma ExitStepKeeps(cfg: Config, s: Sys, s': Sys, r: Run)
    requires Inv(cfg, s) && DoExit(cfg, s, s', r)
    ensures Inv(cfg, s')
  {
    hide UnitOk, Frame, DoneOk, At, TimerOf, Ahead, Exit, ExitEvents, ExitRestarts, ExitState, Beside;
    ExitShape(cfg, s, s', r);
    ExitKeeps(ViewOf(s, r.name), r.gen, cfg.policy[r.name], s.core.stopping, s'.waiters[r.name][r.gen].outbox);
    BesideKeeps(cfg, s, s', r.name);
  }

  /** The stale-generation return of waitProcess is unreachable. */
  lemma StaleNever(cfg: Config, s: Sys, s': Sys, r: Run)
    requires Inv(cfg, s)
    ensures !DoStale(s, s', r)
  {
    hide UnitOk;
    if DoStale(s, s', r) { NeverStale(ViewOf(s, r.name), r.gen); }
  }

  lemma CloseShape(cfg: Config, s: Sys, s': Sys, r: Run)
    requires Frame(cfg, s) && DoClose(s, s', r)
    ensures Beside(s, s', r.name)
    ensures s'.core.procs[r.name] == CloseFinished(Own(s, r), TheWaiter(s, r).phase.finished)
    ensures s'.waiters[r.name] == s.waiters[r.name] - {r.gen}
  {
    hide ConfigOk, DoneOk, OpOk, CloseFinished;
    SameProcs(s.core, r.name, s'.core.procs[r.name]);
  }

  lemma CloseStepKeeps(cfg: Config, s: Sys, s': Sys, r: Run)
    requires Inv(cfg, s) && DoClose(s, s', r)
    ensures Inv(cfg, s')
  {
    hide UnitOk, Frame, At, TimerOf, Ahead, CloseFinished, Beside;
    CloseShape(cfg, s, s', r);
    CloseKeeps(ViewOf(s, r.name), r.gen);
    BesideKeeps(cfg, s, s', r.name);
  }

  lemma ReserveShape(cfg: Config, s: Sys, s': Sys, r: Run)
    requires Frame(cfg, s) && DoReserve(s, s', r)
    ensures Beside(s, s', r.name)
    ensures s'.core.procs[r.name] == CloseFinished(Own(s, r), TheWaiter(s, r).phase.finished)
    ensures s'.waiters[r.name] == s.waiters[r.name][r.gen := TheWaiter(s, r).(phase := Reserved)]
  {
    hide ConfigOk, DoneOk, OpOk, CloseFinished;
    SameProcs(s.core, r.name, s'.core.procs[r.name]);
  }

  lemma ReserveStepKeeps(cfg: Config, s: Sys, s': Sys, r: Run)
    requires Inv(cfg, s) && DoReserve(s, s', r)
    ensures Inv(cfg, s')
  {
    hide UnitOk, Frame, At, TimerOf, Ahead, CloseFinished, Beside;
    ReserveShape(cfg, s, s', r);
    CloseKeeps(ViewOf(s, r.name), r.gen);
    BesideKeeps(cfg, s, s', r.name);
  }

  lemma LapseStepKeeps(cfg: Config, s: Sys, s': Sys, r: Run)
    requires Inv(cfg, s) && (DoCancelSeen(s, s', r) || DoTimerLapse(s, s', r))
    ensures Inv(cfg, s')
  {
    hide UnitOk, ConfigOk, DoneOk, At, TimerOf, Ahead, OpOk, LeaveTimer, TimerValid;
    SameProcs(s.core, r.name, s'.core.procs[r.name]);
    LapseKeeps(ViewOf(s, r.name), r.gen);
    BesideKeeps(cfg, s, s', r.name);
  }

  lemma TimerTakeShape(cfg: Config, s: Sys, s': Sys, r: Run)
    requires Frame(cfg, s) && DoTimerTake(s, s', r) && !s.phase.NotCalled?
    ensures Frame(cfg, s') && OnlyAbout(s, s', r.name)
    ensures ViewOf(s', r.name) == ViewOf(s, r.name).(ws := s.waiters[r.name] - {r.gen}, at := Begin(r.name), timer := Some(r.gen))
  {
    hide ConfigOk, DoneOk, TimerValid;
  }

  lemma TimerTakeStepKeeps(cfg: Config, s: Sys, s': Sys, r: Run)
    requires Inv(cfg, s) && DoTimerTake(s, s', r)
    ensures Inv(cfg, s')
  {
    hide Frame, TimerValid, OnlyAbout;
    assert UnitOk(ViewOf(s, r.name));
    TimerTakeShape(cfg, s, s', r);
    TimerTakeKeeps(ViewOf(s, r.name), r.gen, r.name, s.core.stopping, s.ctxDone);
    OnlyAboutKeeps(s, s', r.name);
  }

  // ---------- Every step ----------

  lemma CommandsKeep(cfg: Config, s: Sys, s': Sys, step: Step)
    requires Frame(cfg, s) && CommandNext(cfg, s, s', step)
    ensures Frame(cfg, s') && Moved(s, s')
  {
    hide Frame, Moved, DoRunBegin, DoStartCmd, DoStopCmd, DoRestartCmd, DoStopAllCmd, DoDoneTake;
    match step
    case RunBegin(names) => RunBeginKeeps(cfg, s, s', names);
    case StartCmd(n) => StartCmdKeeps(cfg, s, s', n);
    case StopCmd(n, order) => StopCmdKeeps(cfg, s, s', n, order);
    case RestartCmd(n, order) => RestartCmdKeeps(cfg, s, s', n, order);
    case StopAllCmd(order, byRun) => StopAllCmdKeeps(cfg, s, s', order, byRun);
    case DoneTake => DoneTakeKeeps(cfg, s, s');
    case _ =>
  }

  lemma MovesKeep(cfg: Config, s: Sys, s': Sys, step: Step)
    requires Frame(cfg, s) && MoveNext(cfg, s, s', step)
    ensures Frame(cfg, s') && Moved(s, s')
  {
    hide Frame, Moved, DoInitialEnd, DoStopEnd, DoStopReturns, DoJoin, DoPass, DoRestartContext, DoResumeRead,
         DoResume, DoContext, DoReject;
    match step
    case InitialEndStep => InitialEndShape(cfg, s, s');
    case StopEndStep => StopEndKeeps(cfg, s, s');
    case StopReturns(ok) => StopReturnsKeeps(cfg, s, s', ok);
    case JoinStep => JoinKeeps(cfg, s, s');
    case PassStep(n) => PassKeeps(cfg, s, s', n);
    case RestartContextStep => RestartContextKeeps(cfg, s, s');
    case ResumeReadStep => ResumeReadKeeps(cfg, s, s');
    case ResumeStep => ResumeKeeps(cfg, s, s');
    case ContextStep => ContextKeeps(cfg, s, s');
    case RejectStep => RejectKeeps(cfg, s, s');
    case _ =>
  }

  lemma TurnsKeep(cfg: Config, s: Sys, s': Sys, step: Step)
    requires Inv(cfg, s) && TurnNext(cfg, s, s', step)
    ensures Inv(cfg, s')
  {
    hide Inv, DoHolderEmit, DoPick, DoSkip, DoMark, DoTurn, DoAdmit, DoReturn;
    match step
    case HolderEmit => SendKeeps(cfg, s, s');
    case PickStep => PickKeeps(cfg, s, s');
    case SkipStep => SkipStepKeeps(cfg, s, s');
    case MarkStep => MarkStepKeeps(cfg, s, s');
    case TurnStep(n) => TurnStepKeeps(cfg, s, s', n);
    case AdmitStep => AdmitStepKeeps(cfg, s, s');
    case ReturnStep => ReturnStepKeeps(cfg, s, s');
    case _ =>
  }

  lemma StartsKeep(cfg: Config, s: Sys, s': Sys, step: Step)
    requires Inv(cfg, s) && StartNext(cfg, s, s', step)
    ensures Inv(cfg, s')
  {
    hide Inv, DoWait, DoRefuse, DoLaunch, DoExec, DoCommit, DoSpawn, DoFail;
    match step
    case WaitStep => WaitStepKeeps(cfg, s, s');
    case RefuseStep => RefuseStepKeeps(cfg, s, s');
    case LaunchStep(spec) => LaunchStepKeeps(cfg, s, s', spec);
    case ExecStep(ok) => ExecStepKeeps(cfg, s, s', ok);
    case CommitStep => CommitStepKeeps(cfg, s, s');
    case SpawnStep => SpawnStepKeeps(cfg, s, s');
    case FailStep => FailStepKeeps(cfg, s, s');
    case _ =>
  }

  lemma OutputsKeep(cfg: Config, s: Sys, s': Sys, step: Step)
    requires Inv(cfg, s) && OutputNext(cfg, s, s', step)
    ensures Inv(cfg, s')
  {
    hide Inv, DoWaiterEmit, DoForwardAdd, DoForwardEmit, DoOutput, DoProcessExit, DoTimerFires;
    match step
    case WaiterEmit(r) => WaiterEmitKeeps(cfg, s, s', r);
    case ForwardAdd(r) => ForwardAddKeeps(cfg, s, s', r);
    case ForwardEmit(r) => ForwardEmitKeeps(cfg, s, s', r);
    case Output(r) => OutputKeeps(cfg, s, s', r);
    case ProcessExit(r, outcome) => ProcessExitKeeps(cfg, s, s', r, outcome);
    case TimerFires(r) => TimerFiresKeeps(cfg, s, s', r);
    case _ =>
  }

  lemma EndsKeep(cfg: Config, s: Sys, s': Sys, step: Step)
    requires Inv(cfg, s) && EndNext(cfg, s, s', step)
    ensures Inv(cfg, s')
  {
    hide Inv, DoExit, DoStale, DoClose, DoReserve, DoCancelSeen, DoTimerTake, DoTimerLapse;
    match step
    case ExitStep(r) => ExitStepKeeps(cfg, s, s', r);
    case StaleStep(r) => StaleNever(cfg, s, s', r);
    case CloseStep(r) => CloseStepKeeps(cfg, s, s', r);
    case ReserveStep(r) => ReserveStepKeeps(cfg, s, s', r);
    case CancelSeen(r) => LapseStepKeeps(cfg, s, s', r);
    case TimerTake(r) => TimerTakeStepKeeps(cfg, s, s', r);
    case TimerLapse(r) => LapseStepKeeps(cfg, s, s', r);
    case _ =>
  }

  lemma RunsKeep(cfg: Config, s: Sys, s': Sys, step: Step)
    requires Inv(cfg, s) && RunNext(cfg, s, s', step)
    ensures Inv(cfg, s')
  {
    hide Inv;
    StillKeeps(cfg, s, s');
  }

  /** Every step keeps the invariant. */
  lemma NextKeeps(cfg: Config, s: Sys, s': Sys, step: Step)
    requires Inv(cfg, s) && Next(cfg, s, s', step)
    ensures Inv(cfg, s')
  {
    hide Frame, Units, Moved, CommandNext, MoveNext, TurnNext, StartNext, OutputNext, EndNext, RunNext;
    if CommandNext(cfg, s, s', step) {
      CommandsKeep(cfg, s, s', step);
      MovedKeeps(s, s');
    } else if MoveNext(cfg, s, s', step) {
      MovesKeep(cfg, s, s', step);
      MovedKeeps(s, s');
    } else if TurnNext(cfg, s, s', step) {
      TurnsKeep(cfg, s, s', step);
    } else if StartNext(cfg, s, s', step) {
      StartsKeep(cfg, s, s', step);
    } else if OutputNext(cfg, s, s', step) {
      OutputsKeep(cfg, s, s', step);
    } else if EndNext(cfg, s, s', step) {
      EndsKeep(cfg, s, s', step);
    } else {
      RunsKeep(cfg, s, s', step);
    }
  }

  lemma {:induction false} RunKeeps(cfg: Config, trace: seq<Sys>, steps: seq<Step>, i: nat)
    requires Trace(cfg, trace, steps) && i < |trace|
    ensures Inv(cfg, trace[i])
  {
    hide Init, Next, Inv;
    if i == 0 {
      InitKeeps(cfg, trace[0]);
    } else {
      RunKeeps(cfg, trace, steps, i - 1);
      assert Next(cfg, trace[i - 1], trace[i - 1 + 1], steps[i - 1]);
      NextKeeps(cfg, trace[i - 1], trace[i], steps[i - 1]);
    }
  }

  lemma FrameKeys(cfg: Config, s: Sys)
    requires Frame(cfg, s)
    ensures s.waiters.Keys == s.core.procs.Keys == cfg.deps.Keys
  {
  }

  /** Single live run, in every interleaving: only the current run of a process can have a
      waiter that has not decided yet; startProcess is entered only with no runner and
      the previous run's channel closed or never made; the stale-generation return is
      never taken; and no channel is closed twice. */
  lemma SingleLiveRun(cfg: Config, trace: seq<Sys>, steps: seq<Step>, i: nat, n: string)
    requires Trace(cfg, trace, steps) && i < |trace| && n in cfg.deps
    ensures n in trace[i].core.procs && n in trace[i].waiters
    ensures var p, ws := trace[i].core.procs[n], trace[i].waiters[n];
            && (forall k :: k in ws && Watched(ws[k].phase) ==> k == p.gen && p.runner == Some(k))
            && (trace[i].holder.Busy? && trace[i].holder.pc == Begin(n) ==>
                  p.runner.None? && Published(p) && forall k :: k in ws ==> !Watched(ws[k].phase))
            && !p.panicked
    ensures i < |steps| ==> !steps[i].StaleStep?
  {
    hide Next, Init, Frame, UnitOk;
    RunKeeps(cfg, trace, steps, i);
    FrameKeys(cfg, trace[i]);
    OneRun(ViewOf(trace[i], n));
    if i < |steps| {
      assert Next(cfg, trace[i], trace[i + 1], steps[i]);
      NotStale(cfg, trace[i], trace[i + 1], steps[i]);
    }
  }

  lemma OneRun(v: View)
    requires UnitOk(v)
    ensures forall k :: k in v.ws && Watched(v.ws[k].phase) ==> k == v.p.gen && v.p.runner == Some(k)
    ensures v.at.Begin? ==> v.p.runner.None? && Published(v.p)
    ensures !v.p.panicked
  {
    forall k | k in v.ws && Watched(v.ws[k].phase) ensures k == v.p.gen && v.p.runner == Some(k) {
      assert WaiterOk(v.p, k, v.ws[k]);
    }
  }

  lemma NotStale(cfg: Config, s: Sys, s': Sys, step: Step)
    requires Inv(cfg, s) && Next(cfg, s, s', step)
    ensures !step.StaleStep?
  {
    hide Inv, DoStale;
    if step.StaleStep? { StaleNever(cfg, s, s', step.run); }
  }
}
