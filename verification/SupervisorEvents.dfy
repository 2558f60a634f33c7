/** The event stream: for every process, repetitions of a start, its log lines and its
    exit, with consecutive log cursors across runs. */
module SupervisorEvents {
  import opened DependencyGraph
  import opened StopOrder
  import opened Lifecycle
  import opened Options
  import opened SupervisorMachine
  import opened SupervisorUnit
  import opened SupervisorInvariant
  import opened SupervisorEffects
  import opened SupervisorDependencies
  import opened SupervisorStops
  import opened SupervisorCompletion

  // ---------- Reading the stream ----------

  /** A reader of the events of one process: whether it is between a start and an exit,
      the last cursor seen, and whether everything was in order so far. */
  datatype Monitor = Monitor(running: bool, cursor: nat, ok: bool)

  const Fresh := Monitor(false, 0, true)

  /** The cursor of the next line; without retention lines are not counted. */
  function NextCursor(cursor: nat, retains: bool): nat {
    if retains then cursor + 1 else 0
  }

  function Observe(m: Monitor, e: Event, n: string, retains: bool): Monitor {
    match e
    case Started(x) => if x == n then Monitor(true, m.cursor, m.ok && !m.running) else m
    case LogLine(x, c) => if x == n then Monitor(m.running, c, m.ok && m.running && c == NextCursor(m.cursor, retains)) else m
    case ProcessExited(x, _) => if x == n then Monitor(false, m.cursor, m.ok && m.running) else m
    case _ => m
  }

  function Scan(events: seq<Event>, n: string, retains: bool): Monitor {
    if events == [] then Fresh
    else Observe(Scan(events[..|events| - 1], n, retains), events[|events| - 1], n, retains)
  }

  /** What a reader will have seen once an outbox has been sent. */
  function Play(m: Monitor, outbox: seq<Event>, n: string, retains: bool): Monitor
    decreases |outbox|
  {
    if outbox == [] then m else Play(Observe(m, outbox[0], n, retains), outbox[1..], n, retains)
  }

  /** The events matter to no reader of process n. */
  predicate Quietly(e: Event, n: string) {
    (e.Started? || e.LogLine? || e.ProcessExited?) ==> e.process != n
  }

  predicate Silent(outbox: seq<Event>, n: string) {
    forall e :: e in outbox ==> Quietly(e, n)
  }

  lemma {:induction false} SilentPlay(m: Monitor, outbox: seq<Event>, n: string, retains: bool)
    requires Silent(outbox, n)
    ensures Play(m, outbox, n, retains) == m
    decreases |outbox|
  {
    if outbox != [] {
      assert Quietly(outbox[0], n);
      SilentPlay(m, outbox[1..], n, retains);
    }
  }

  lemma ScanSnoc(events: seq<Event>, e: Event, n: string, retains: bool)
    ensures Scan(events + [e], n, retains) == Observe(Scan(events, n, retains), e, n, retains)
  {
    assert (events + [e])[..|events + [e]| - 1] == events;
  }

  lemma {:induction false} PlayOk(m: Monitor, outbox: seq<Event>, n: string, retains: bool)
    requires Play(m, outbox, n, retains).ok
    ensures m.ok && (retains ==> m.cursor <= Play(m, outbox, n, retains).cursor)
    decreases |outbox|
  {
    if outbox != [] { PlayOk(Observe(m, outbox[0], n, retains), outbox[1..], n, retains); }
  }

  lemma {:induction false} PlayConcat(m: Monitor, a: seq<Event>, b: seq<Event>, n: string, retains: bool)
    ensures Play(m, a + b, n, retains) == Play(Play(m, a, n, retains), b, n, retains)
    decreases |a|
  {
    if a == [] {
      assert a + b == b;
    } else {
      assert (a + b)[0] == a[0] && (a + b)[1..] == a[1..] + b;
      PlayConcat(Observe(m, a[0], n, retains), a[1..], b, n, retains);
    }
  }

  /** One event that matters, among others that do not. */
  lemma PlayOne(m: Monitor, head: seq<Event>, e: Event, tail: seq<Event>, n: string, retains: bool)
    requires Silent(head, n) && Silent(tail, n)
    ensures Play(m, head + [e] + tail, n, retains) == Observe(m, e, n, retains)
  {
    PlayConcat(m, head + [e], tail, n, retains);
    PlayConcat(m, head, [e], n, retains);
    SilentPlay(m, head, n, retains);
    SilentPlay(Observe(m, e, n, retains), tail, n, retains);
    assert Play(m, [e], n, retains) == Observe(m, e, n, retains) by { PlaySingle(m, e, n, retains); }
  }

  lemma PlaySingle(m: Monitor, e: Event, n: string, retains: bool)
    ensures Play(m, [e], n, retains) == Observe(m, e, n, retains)
  {
    assert [e][1..] == [];
  }

  function ExitTail(n: string, restart: bool, outcome: Outcome): seq<Event> {
    (if outcome.supervisionError then [SupervisorError(n)] else [])
    + if restart then [StateChanged(n, Pending), RestartScheduled(n)] else []
  }

  lemma ExitSplit(n: string, p: Proc, restart: bool, outcome: Outcome)
    ensures ExitEvents(n, p, restart, outcome)
            == Changed(n, p, ExitState(p, outcome)) + [ProcessExited(n, ExitState(p, outcome))] + ExitTail(n, restart, outcome)
    ensures Silent(Changed(n, p, ExitState(p, outcome)), n) && Silent(ExitTail(n, restart, outcome), n)
  {
  }

  /** An exit is announced once. */
  lemma ExitPlay(m: Monitor, n: string, retains: bool, p: Proc, restart: bool, outcome: Outcome)
    ensures Play(m, ExitEvents(n, p, restart, outcome), n, retains) == Observe(m, ProcessExited(n, ExitState(p, outcome)), n, retains)
  {
    hide Play, Observe, ExitEvents, ExitTail, Changed, ExitState, Silent;
    ExitSplit(n, p, restart, outcome);
    var state := ExitState(p, outcome);
    PlayOne(m, Changed(n, p, state), ProcessExited(n, state), ExitTail(n, restart, outcome), n, retains);
  }

  lemma StartPlay(m: Monitor, n: string, retains: bool, p: Proc)
    ensures Play(m, Changed(n, p, Running) + [Started(n)], n, retains) == Observe(m, Started(n), n, retains)
  {
    hide Play, Observe;
    var head := Changed(n, p, Running);
    PlayOne(m, head, Started(n), [], n, retains);
    assert head + [Started(n)] + [] == head + [Started(n)];
  }

  // ---------- One process ----------

  predicate Observed(ws: map<nat, Waiter>, gen: nat) {
    gen in ws && Watched(ws[gen].phase)
  }

  function WaiterOut(ws: map<nat, Waiter>, gen: nat): seq<Event> {
    if gen in ws then ws[gen].outbox else []
  }

  function Hand(ws: map<nat, Waiter>, gen: nat): Option<nat> {
    if gen in ws then ws[gen].inHand else None
  }

  /** The reader's state once all that is waiting to be sent has been sent. */
  function Caught(m: Monitor, out: seq<Event>, ws: map<nat, Waiter>, gen: nat, n: string, retains: bool): Monitor {
    Play(Play(m, out, n, retains), WaiterOut(ws, gen), n, retains)
  }

  /** A reader that has caught up knows of a start without exit exactly while the current
      run has a waiter that has not decided, or is about to get one; and the log lines
      it knows are those in the buffer, but for the one in the forwarder's hand. */
  ghost predicate StreamOk(v: View, out: seq<Event>, m: Monitor, n: string, retains: bool) {
    var f := Caught(m, out, v.ws, v.p.gen, n, retains);
    && f.ok
    && (f.running <==> v.at.Spawn? || Observed(v.ws, v.p.gen))
    && (match Hand(v.ws, v.p.gen) case Some(c) => c == v.p.logged == NextCursor(f.cursor, retains) case None => f.cursor == v.p.logged)
    && (!retains ==> v.p.logged == 0)
    && (!v.at.Spawn? ==> Silent(out, n))
  }

  lemma CaughtSilent(m: Monitor, out: seq<Event>, ws: map<nat, Waiter>, gen: nat, n: string, retains: bool)
    requires Silent(out, n)
    ensures Caught(m, out, ws, gen, n, retains) == Play(m, WaiterOut(ws, gen), n, retains)
  {
    SilentPlay(m, out, n, retains);
  }

  /** Commit: the start is put in the outbox. */
  lemma CommitStream(v: View, m: Monitor, n: string, retains: bool)
    requires UnitOk(v) && v.at.CommitAt? && StreamOk(v, [], m, n, retains)
    ensures StreamOk(v.(p := Commit(v.p), at := Spawn(n)), Changed(n, v.p, Running) + [Started(n)], m, n, retains)
  {
    assert v.p.gen !in v.ws;
    StartPlay(m, n, retains, v.p);
  }

  /** The waiter takes over. */
  lemma SpawnStream(v: View, m: Monitor, n: string, retains: bool)
    requires UnitOk(v) && v.at.Spawn? && StreamOk(v, [], m, n, retains)
    ensures StreamOk(v.(ws := v.ws[v.p.gen := Waiter(Live, 0, None, [])], at := Return), [], m, n, retains)
  {
    assert v.p.gen !in v.ws;
  }

  /** The exit is put in the waiter's outbox. */
  lemma ExitStream(v: View, out: seq<Event>, m: Monitor, n: string, retains: bool, restart: bool)
    requires UnitOk(v) && StreamOk(v, out, m, n, retains)
    requires v.p.gen in v.ws && v.ws[v.p.gen].phase.Done? && v.ws[v.p.gen].inHand.None?
    ensures var outcome := v.ws[v.p.gen].phase.outcome;
            var w := v.ws[v.p.gen].(phase := Publishing(restart, v.p.finished), outbox := ExitEvents(n, v.p, restart, outcome));
            StreamOk(v.(p := Exit(v.p, restart, outcome), ws := v.ws[v.p.gen := w]), out, m, n, retains)
  {
    var k := v.p.gen;
    var outcome := v.ws[k].phase.outcome;
    assert WaiterOk(v.p, k, v.ws[k]);
    assert !v.at.Spawn?;
    CaughtSilent(m, out, v.ws, k, n, retains);
    SilentPlay(m, out, n, retains);
    ExitPlay(m, n, retains, v.p, restart, outcome);
  }

  /** A line enters the buffer. */
  lemma AddStream(v: View, out: seq<Event>, m: Monitor, n: string, retains: bool, k: nat)
    requires UnitOk(v) && StreamOk(v, out, m, n, retains)
    requires k in v.ws && Watched(v.ws[k].phase) && v.ws[k].lines > 0 && v.ws[k].inHand.None?
    ensures var p := AddLog(v.p, retains);
            StreamOk(v.(p := p, ws := v.ws[k := v.ws[k].(lines := v.ws[k].lines - 1, inHand := Some(p.logged))]), out, m, n, retains)
  {
    assert WaiterOk(v.p, k, v.ws[k]);
  }

  /** Its event is sent. */
  lemma SendLineStream(v: View, out: seq<Event>, m: Monitor, n: string, retains: bool, k: nat)
    requires UnitOk(v) && StreamOk(v, out, m, n, retains) && k in v.ws && v.ws[k].inHand.Some?
    ensures StreamOk(v.(ws := v.ws[k := v.ws[k].(inHand := None)]), out, Observe(m, LogLine(n, v.ws[k].inHand.value), n, retains), n, retains)
  {
    assert WaiterOk(v.p, k, v.ws[k]);
    var m' := Observe(m, LogLine(n, v.ws[k].inHand.value), n, retains);
    assert !v.at.Spawn?;
    SilentPlay(m, out, n, retains);
    SilentPlay(m', out, n, retains);
  }

  /** The waiter sends an event of its outbox. */
  lemma SendExitStream(v: View, out: seq<Event>, m: Monitor, n: string, retains: bool, k: nat)
    requires UnitOk(v) && StreamOk(v, out, m, n, retains) && k in v.ws && v.ws[k].outbox != []
    ensures StreamOk(v.(ws := v.ws[k := v.ws[k].(outbox := v.ws[k].outbox[1..])]), out, Observe(m, v.ws[k].outbox[0], n, retains), n, retains)
  {
    assert WaiterOk(v.p, k, v.ws[k]);
    assert k == v.p.gen && !v.at.Spawn?;
    SilentPlay(m, out, n, retains);
    SilentPlay(Observe(m, v.ws[k].outbox[0], n, retains), out, n, retains);
  }

  /** The holder sends an event of its outbox. */
  lemma SendStream(v: View, out: seq<Event>, m: Monitor, n: string, retains: bool)
    requires StreamOk(v, out, m, n, retains) && out != []
    ensures StreamOk(v, out[1..], Observe(m, out[0], n, retains), n, retains)
  {
  }

  /** Nothing a reader would notice. */
  predicate SameStream(v: View, v': View) {
    && v'.p.logged == v.p.logged && v'.at.Spawn? == v.at.Spawn?
    && Observed(v'.ws, v'.p.gen) == Observed(v.ws, v.p.gen)
    && WaiterOut(v'.ws, v'.p.gen) == WaiterOut(v.ws, v.p.gen)
    && Hand(v'.ws, v'.p.gen) == Hand(v.ws, v.p.gen)
  }

  lemma SameKeeps(v: View, v': View, out: seq<Event>, out': seq<Event>, m: Monitor, n: string, retains: bool)
    requires StreamOk(v, out, m, n, retains) && SameStream(v, v')
    requires out' == out || (Silent(out, n) && Silent(out', n))
    ensures StreamOk(v', out', m, n, retains)
  {
    if out' != out {
      SilentPlay(m, out, n, retains);
      SilentPlay(m, out', n, retains);
    }
  }

  lemma OtherEvent(v: View, out: seq<Event>, m: Monitor, e: Event, n: string, retains: bool)
    requires StreamOk(v, out, m, n, retains) && Quietly(e, n)
    ensures StreamOk(v, out, Observe(m, e, n, retains), n, retains)
  {
    assert Observe(m, e, n, retains) == m;
  }

  // ---------- What is sent when ----------

  function HolderOut(s: Sys): seq<Event> {
    if s.holder.Busy? then s.holder.outbox else []
  }

  function Stream(s: Sys, e: Event): seq<Event> {
    if s.phase.Finished? then s.events else s.events + [e]
  }

  /** The step sends nothing, and what it puts in the holder's outbox does not matter to
      a reader of process n. */
  ghost predicate Unsent(s: Sys, s': Sys, n: string) {
    && s'.events == s.events
    && (HolderOut(s') == HolderOut(s) || (HolderOut(s) == [] && Silent(HolderOut(s'), n)))
  }

  ghost predicate Sent(s: Sys, s': Sys, step: Step, n: string) {
    match step
    case HolderEmit => HolderOut(s) != [] && HolderOut(s') == HolderOut(s)[1..] && s'.events == Stream(s, HolderOut(s)[0])
    case WaiterEmit(r) =>
      HasWaiter(s, r) && TheWaiter(s, r).outbox != [] && HolderOut(s') == HolderOut(s) && s'.events == Stream(s, TheWaiter(s, r).outbox[0])
    case ForwardEmit(r) =>
      && HasWaiter(s, r) && TheWaiter(s, r).inHand.Some? && HolderOut(s') == HolderOut(s)
      && s'.events == Stream(s, LogLine(r.name, TheWaiter(s, r).inHand.value))
    case Announce => s'.events == s.events + [SupervisorStopped] && HolderOut(s') == HolderOut(s)
    case CommitStep =>
      && s'.events == s.events && HolderOut(s) == []
      && (if At(s.holder, n).CommitAt? && n in s.core.procs
          then HolderOut(s') == Changed(n, s.core.procs[n], Running) + [Started(n)]
          else Silent(HolderOut(s'), n))
    case _ => Unsent(s, s', n)
  }

  lemma CommandSent(cfg: Config, s: Sys, s': Sys, step: Step, n: string)
    requires CommandNext(cfg, s, s', step)
    ensures Sent(s, s', step, n)
  {
    hide IsStartOrder, IsFullStopOrder, IsStopOrder;
  }

  lemma MoveSent(cfg: Config, s: Sys, s': Sys, step: Step, n: string)
    requires MoveNext(cfg, s, s', step)
    ensures Sent(s, s', step, n)
  {
    hide AllDone, Startable, HasWaiter, ResumeSet;
  }

  lemma {:induction false} MarkSilent(core: Core, order: seq<string>, n: string)
    ensures Silent(MarkEvents(core, order), n)
    decreases |order|
  {
    if order != [] { MarkSilent(core, order[..|order| - 1], n); }
  }

  lemma TurnSent(cfg: Config, s: Sys, s': Sys, step: Step, n: string)
    requires TurnNext(cfg, s, s', step)
    ensures Sent(s, s', step, n)
  {
    hide MarkOne, MarkEvents, Admit, Skip, TurnStopping, LeaveTimer, DepsReady, Startable;
    if s.holder.Busy? { MarkSilent(s.core, StopList(s.holder.op), n); }
  }

  lemma StartSent(cfg: Config, s: Sys, s': Sys, step: Step, n: string)
    requires StartNext(cfg, s, s', step)
    ensures Sent(s, s', step, n)
  {
    hide AllDone, Launch, FailStart, Commit;
  }

  lemma OutputSent(cfg: Config, s: Sys, s': Sys, step: Step, n: string)
    requires OutputNext(cfg, s, s', step)
    ensures Sent(s, s', step, n)
  {
    hide AddLog, Silent;
  }

  lemma EndSent(cfg: Config, s: Sys, s': Sys, step: Step, n: string)
    requires EndNext(cfg, s, s', step)
    ensures Sent(s, s', step, n)
  {
    hide AllDone, Exit, ExitRestarts, ExitEvents, ExitState, CloseFinished, TimerValid, LeaveTimer, Silent;
  }

  lemma RunSent(cfg: Config, s: Sys, s': Sys, step: Step, n: string)
    requires RunNext(cfg, s, s', step)
    ensures Sent(s, s', step, n)
  {
  }

  lemma NextSent(cfg: Config, s: Sys, s': Sys, step: Step, n: string)
    requires Next(cfg, s, s', step)
    ensures Sent(s, s', step, n)
  {
    hide Sent, CommandNext, MoveNext, TurnNext, StartNext, OutputNext, EndNext, RunNext;
    if CommandNext(cfg, s, s', step) { CommandSent(cfg, s, s', step, n); }
    else if MoveNext(cfg, s, s', step) { MoveSent(cfg, s, s', step, n); }
    else if TurnNext(cfg, s, s', step) { TurnSent(cfg, s, s', step, n); }
    else if StartNext(cfg, s, s', step) { StartSent(cfg, s, s', step, n); }
    else if OutputNext(cfg, s, s', step) { OutputSent(cfg, s, s', step, n); }
    else if EndNext(cfg, s, s', step) { EndSent(cfg, s, s', step, n); }
    else { RunSent(cfg, s, s', step, n); }
  }

  // ---------- Steps a reader of process n does not notice ----------

  /** What a waiter's step finds. */
  ghost predicate Guarded(cfg: Config, s: Sys, step: Step) {
    RunOf(step).Some? ==>
      && HasWaiter(s, RunOf(step).value)
      && var w, p := TheWaiter(s, RunOf(step).value), Own(s, RunOf(step).value);
         match step
         case CloseStep(_) => w.phase.Publishing? && w.outbox == []
         case ReserveStep(_) => w.phase.Publishing? && w.outbox == []
         case CancelSeen(_) => w.phase.Reserved?
         case TimerTake(_) => w.phase.Fired?
         case TimerLapse(_) => w.phase.Fired?
         case TimerFires(_) => w.phase.Reserved?
         case Output(_) => w.phase.Live?
         case ProcessExit(_, _) => w.phase.Live?
         case ForwardAdd(r) => Watched(w.phase) && w.lines > 0 && w.inHand.None? && r.name in cfg.retains
         case ForwardEmit(_) => w.inHand.Some?
         case WaiterEmit(_) => w.outbox != []
         case ExitStep(r) => w.phase.Done? && w.inHand.None? && p.gen == r.gen && r.name in cfg.policy
         case _ => w.phase.Done?
  }

  lemma OutputGuarded(cfg: Config, s: Sys, s': Sys, step: Step)
    requires OutputNext(cfg, s, s', step)
    ensures Guarded(cfg, s, step)
  {
    hide AddLog, PutProc;
  }

  lemma EndGuarded(cfg: Config, s: Sys, s': Sys, step: Step)
    requires EndNext(cfg, s, s', step)
    ensures Guarded(cfg, s, step)
  {
    hide AllDone, Exit, ExitRestarts, ExitEvents, ExitState, CloseFinished, TimerValid, LeaveTimer;
  }

  lemma NotWaiterStep(cfg: Config, s: Sys, s': Sys, step: Step)
    requires Next(cfg, s, s', step) && !OutputNext(cfg, s, s', step) && !EndNext(cfg, s, s', step)
    ensures RunOf(step).None?
  {
    hide IsStartOrder, IsFullStopOrder, IsStopOrder, AllDone, Startable, HasWaiter, ResumeSet, MarkOne, MarkEvents,
         Admit, Skip, TurnStopping, LeaveTimer, DepsReady, Launch, FailStart, Commit, OutputNext, EndNext,
         DoRunBegin, DoStartCmd, DoStopCmd, DoRestartCmd, DoStopAllCmd, DoDoneTake, DoInitialEnd, DoStopEnd,
         DoStopReturns, DoJoin, DoPass, DoRestartContext, DoResumeRead, DoResume, DoContext, DoReject,
         DoHolderEmit, DoPick, DoSkip, DoMark, DoTurn, DoAdmit, DoReturn, DoWait, DoRefuse, DoLaunch, DoExec,
         DoCommit, DoSpawn, DoFail, DoWatch, DoAnnounce, DoCloseEvents;
  }

  lemma NextGuarded(cfg: Config, s: Sys, s': Sys, step: Step)
    requires Next(cfg, s, s', step)
    ensures Guarded(cfg, s, step)
  {
    hide Next, OutputNext, EndNext;
    if OutputNext(cfg, s, s', step) { OutputGuarded(cfg, s, s', step); }
    else if EndNext(cfg, s, s', step) { EndGuarded(cfg, s, s', step); }
    else { NotWaiterStep(cfg, s, s', step); }
  }

  /** The holder leaves the spawning of a waiter only by spawning it. */
  ghost predicate SpawnPlace(s: Sys, s': Sys, step: Step, n: string) {
    At(s.holder, n).Spawn? && !At(s'.holder, n).Spawn? ==> step.SpawnStep?
  }

  lemma TurnSpawnPlace(cfg: Config, s: Sys, s': Sys, step: Step, n: string)
    requires TurnNext(cfg, s, s', step)
    ensures SpawnPlace(s, s', step, n)
  {
    hide MarkOne, MarkEvents, Admit, Skip, TurnStopping, LeaveTimer, DepsReady, Startable;
  }

  lemma MoveSpawnPlace(cfg: Config, s: Sys, s': Sys, step: Step, n: string)
    requires MoveNext(cfg, s, s', step)
    ensures SpawnPlace(s, s', step, n)
  {
    hide AllDone, Startable, HasWaiter, ResumeSet;
  }

  lemma StartSpawnPlace(cfg: Config, s: Sys, s': Sys, step: Step, n: string)
    requires StartNext(cfg, s, s', step)
    ensures SpawnPlace(s, s', step, n)
  {
    hide AllDone, Launch, FailStart, Commit;
  }

  lemma NextSpawnPlace(cfg: Config, s: Sys, s': Sys, step: Step, n: string)
    requires Next(cfg, s, s', step)
    ensures SpawnPlace(s, s', step, n)
  {
    hide CommandNext, MoveNext, TurnNext, StartNext, OutputNext, EndNext, RunNext;
    if CommandNext(cfg, s, s', step) { CommandsAtRest(cfg, s, s', step); }
    else if MoveNext(cfg, s, s', step) { MoveSpawnPlace(cfg, s, s', step, n); }
    else if TurnNext(cfg, s, s', step) { TurnSpawnPlace(cfg, s, s', step, n); }
    else if StartNext(cfg, s, s', step) { StartSpawnPlace(cfg, s, s', step, n); }
    else if OutputNext(cfg, s, s', step) { OutputFrame(cfg, s, s', step); }
    else if EndNext(cfg, s, s', step) { EndFrame(cfg, s, s', step); }
    else { RunFrame(cfg, s, s', step); }
  }

  lemma HolderSectionsLog(p: Proc)
    ensures MarkOne(p).logged == TurnStopping(p).logged == Admit(p).logged == Skip(p).logged == Commit(p).logged == p.logged
    ensures FailStart(p).logged == p.logged && forall spec :: Launch(p, spec).logged == p.logged
  {
  }

  lemma WaiterSectionsLog(p: Proc)
    ensures forall restart, outcome :: Exit(p, restart, outcome).logged == p.logged
    ensures forall f :: CloseFinished(p, f).logged == p.logged
    ensures forall k :: LeaveTimer(p, k).logged == p.logged
  {
  }

  lemma LoggedRecord(cfg: Config, s: Sys, step: Step, n: string)
    requires n in s.core.procs
    ensures !(step.ForwardAdd? && step.run.name == n) ==> RecordAfter(cfg, s, step, n).logged == s.core.procs[n].logged
    ensures RecordAfter(cfg, s, step, n).logged >= s.core.procs[n].logged
  {
    hide MarkOne, TurnStopping, Admit, Skip, Commit, FailStart, Launch, LeaveTimer, Exit, CloseFinished,
         ExitRestarts, HasWaiter, TheWaiter;
    HolderSectionsLog(s.core.procs[n]);
    WaiterSectionsLog(s.core.procs[n]);
  }

  /** The step is about the stream of process n. */
  predicate Notable(s: Sys, step: Step, n: string) {
    || (step.CommitStep? && At(s.holder, n).CommitAt?)
    || (step.SpawnStep? && At(s.holder, n).Spawn?)
    || ((step.ExitStep? || step.ForwardAdd? || step.ForwardEmit? || step.WaiterEmit?) && step.run.name == n)
  }

  lemma RunsBelow(v: View)
    requires UnitOk(v)
    ensures forall k :: k in v.ws ==> k <= v.p.gen
  {
    forall k | k in v.ws ensures k <= v.p.gen {
      assert WaiterOk(v.p, k, v.ws[k]);
    }
  }

  lemma SameAfterLaunch(v: View)
    requires UnitOk(v) && v.at.Begin?
    ensures v.p.gen + 1 !in v.ws && !Observed(v.ws, v.p.gen) && WaiterOut(v.ws, v.p.gen) == []
    ensures Hand(v.ws, v.p.gen).None?
  {
    RunsBelow(v);
    if v.p.gen in v.ws { assert WaiterOk(v.p, v.p.gen, v.ws[v.p.gen]); }
  }

  predicate SameGen(ws: map<nat, Waiter>, ws': map<nat, Waiter>, g: nat) {
    Observed(ws', g) == Observed(ws, g) && WaiterOut(ws', g) == WaiterOut(ws, g) && Hand(ws', g) == Hand(ws, g)
  }

  /** A waiter that goes has nothing left to say. */
  lemma SameWithout(v: View, k: nat)
    requires UnitOk(v) && k in v.ws
    requires v.ws[k].phase.Reserved? || v.ws[k].phase.Fired? || (v.ws[k].phase.Publishing? && v.ws[k].outbox == [])
    ensures SameGen(v.ws, v.ws - {k}, v.p.gen)
  {
    assert WaiterOk(v.p, k, v.ws[k]);
  }

  lemma SameWith(v: View, k: nat, w: Waiter)
    requires k in v.ws && Watched(w.phase) == Watched(v.ws[k].phase) && w.outbox == v.ws[k].outbox
    requires w.inHand == v.ws[k].inHand
    ensures SameGen(v.ws, v.ws[k := w], v.p.gen)
  {
  }

  lemma SameUpdate(cfg: Config, s: Sys, step: Step, r: Run)
    requires Guarded(cfg, s, step) && RunOf(step) == Some(r) && !Notable(s, step, r.name) && !Ends(step)
    ensures var w, w' := TheWaiter(s, r), WaiterAfter(cfg, s, step, r);
            Watched(w'.phase) == Watched(w.phase) && w'.outbox == w.outbox && w'.inHand == w.inHand
  {
    hide AddLog, ExitEvents, ExitRestarts;
  }

  lemma SameEnd(cfg: Config, s: Sys, step: Step, r: Run)
    requires Guarded(cfg, s, step) && RunOf(step) == Some(r) && Ends(step) && !step.StaleStep?
    ensures var w := TheWaiter(s, r); w.phase.Reserved? || w.phase.Fired? || (w.phase.Publishing? && w.outbox == [])
  {
  }

  lemma SameWaiters(cfg: Config, s: Sys, step: Step, n: string)
    requires n in s.core.procs && n in s.waiters && Guarded(cfg, s, step) && !Notable(s, step, n) && !step.StaleStep?
    requires UnitOk(ViewOf(s, n))
    ensures SameGen(s.waiters[n], WaitersAfter(cfg, s, step, n), s.core.procs[n].gen)
    ensures WaitersAfter(cfg, s, step, n).Keys <= s.waiters[n].Keys
  {
    hide UnitOk, Guarded, WaiterAfter, SameGen, Ends, RunOf, At, TimerOf, Ahead;
    SameRefl(s.waiters[n], s.core.procs[n].gen);
    NotSpawning(s, step, n);
    if RunOf(step).Some? && RunOf(step).value.name == n && RunOf(step).value.gen in s.waiters[n] {
      var r := RunOf(step).value;
      if Ends(step) {
        SameEnd(cfg, s, step, r);
        SameWithout(ViewOf(s, n), r.gen);
      } else {
        SameUpdate(cfg, s, step, r);
        SameWith(ViewOf(s, n), r.gen, WaiterAfter(cfg, s, step, r));
      }
    }
  }

  lemma SameRefl(ws: map<nat, Waiter>, g: nat)
    ensures SameGen(ws, ws, g)
  {
  }

  lemma NotSpawning(s: Sys, step: Step, n: string)
    requires !Notable(s, step, n)
    ensures !(step.SpawnStep? && At(s.holder, n).Spawn?)
  {
  }

  lemma SameAt(cfg: Config, s: Sys, s': Sys, step: Step, n: string)
    requires Approached(cfg, s, s', step, n) && SpawnPlace(s, s', step, n) && !Notable(s, step, n)
    ensures At(s'.holder, n).Spawn? == At(s.holder, n).Spawn?
  {
    hide At, Startable, DepsReady, TimerValid;
  }

  lemma NothingNoticed(cfg: Config, s: Sys, s': Sys, step: Step, n: string)
    requires Inv(cfg, s) && Next(cfg, s, s', step) && n in s.core.procs && !Notable(s, step, n)
    ensures n in s.waiters && n in s'.core.procs && n in s'.waiters
    ensures SameStream(ViewOf(s, n), ViewOf(s', n))
  {
    hide Frame, Next, UnitOk, RecordAfter, WaitersAfter, Approached, At, TimerOf, Ahead, Notable, Launches,
         Observed, WaiterOut, Hand;
    Effects(cfg, s, s', step, n);
    NextGuarded(cfg, s, s', step);
    NextSpawnPlace(cfg, s, s', step, n);
    NotStale(cfg, s, s', step);
    SameAt(cfg, s, s', step, n);
    SameWaiters(cfg, s, step, n);
    GenRecord(cfg, s, step, n);
    AddNotable(s, step, n);
    LoggedRecord(cfg, s, step, n);
    if Launches(s, step, n) {
      LaunchesAt(s, step, n);
      SameAfterLaunch(ViewOf(s, n));
      Unwatched(s'.waiters[n], s.core.procs[n].gen + 1);
    }
  }

  lemma AddNotable(s: Sys, step: Step, n: string)
    requires !Notable(s, step, n)
    ensures !(step.ForwardAdd? && step.run.name == n)
  {
  }

  lemma LaunchesAt(s: Sys, step: Step, n: string)
    requires Launches(s, step, n)
    ensures At(s.holder, n).Begin?
  {
  }

  lemma Unwatched(ws: map<nat, Waiter>, k: nat)
    requires k !in ws
    ensures !Observed(ws, k) && WaiterOut(ws, k) == [] && Hand(ws, k).None?
  {
  }

  // ---------- Waiters speak of their own process only ----------

  predicate About(outbox: seq<Event>, n: string) {
    forall e :: e in outbox && (e.Started? || e.LogLine? || e.ProcessExited?) ==> e.process == n
  }

  ghost predicate AboutOk(ws: map<nat, Waiter>, n: string) {
    forall k :: k in ws ==> About(ws[k].outbox, n)
  }

  lemma ExitAbout(n: string, p: Proc, restart: bool, outcome: Outcome)
    ensures About(ExitEvents(n, p, restart, outcome), n)
  {
  }

  lemma WaiterAbout(cfg: Config, s: Sys, step: Step, r: Run)
    requires HasWaiter(s, r) && About(TheWaiter(s, r).outbox, r.name)
    ensures About(WaiterAfter(cfg, s, step, r).outbox, r.name)
  {
    hide ExitEvents, ExitRestarts, AddLog;
    if step.ExitStep? && TheWaiter(s, r).phase.Done? && r.name in cfg.policy {
      var p, outcome := Own(s, r), TheWaiter(s, r).phase.outcome;
      ExitAbout(r.name, p, ExitRestarts(cfg.policy[r.name], p, s.core.stopping, outcome), outcome);
    }
  }

  lemma AboutAfter(cfg: Config, s: Sys, step: Step, n: string)
    requires n in s.core.procs && n in s.waiters && AboutOk(s.waiters[n], n)
    ensures AboutOk(WaitersAfter(cfg, s, step, n), n)
  {
    hide WaiterAfter, About;
    EmptyAbout(n);
    if RunOf(step).Some? && RunOf(step).value.name == n && RunOf(step).value.gen in s.waiters[n] {
      WaiterAbout(cfg, s, step, RunOf(step).value);
    }
  }

  ghost predicate AllAbout(s: Sys) {
    forall m :: m in s.waiters ==> AboutOk(s.waiters[m], m)
  }

  lemma EmptyAbout(n: string)
    ensures About([], n)
  {
  }

  // ---------- Every step ----------

  ghost predicate StreamHere(cfg: Config, s: Sys, n: string)
    requires n in s.core.procs && n in s.waiters && n in cfg.retains
  {
    StreamOk(ViewOf(s, n), HolderOut(s), Scan(s.events, n, cfg.retains[n]), n, cfg.retains[n])
  }

  // What steps that are not about process n may send.

  lemma WaiterSends(cfg: Config, s: Sys, s': Sys, r: Run, n: string)
    requires n in s.core.procs && n in s.waiters && n in cfg.retains && n in s'.core.procs && n in s'.waiters
    requires StreamHere(cfg, s, n) && SameStream(ViewOf(s, n), ViewOf(s', n))
    requires Sent(s, s', WaiterEmit(r), n) && !s.phase.Finished? && r.name != n
    requires AllAbout(s)
    ensures StreamHere(cfg, s', n)
  {
    hide ViewOf, SameStream, StreamHere, Quietly, AboutOk;
    OthersQuiet(s, r, n);
    OtherSends(cfg, s, s', TheWaiter(s, r).outbox[0], n);
  }

  lemma LineSends(cfg: Config, s: Sys, s': Sys, r: Run, n: string)
    requires n in s.core.procs && n in s.waiters && n in cfg.retains && n in s'.core.procs && n in s'.waiters
    requires StreamHere(cfg, s, n) && SameStream(ViewOf(s, n), ViewOf(s', n))
    requires Sent(s, s', ForwardEmit(r), n) && !s.phase.Finished? && r.name != n
    ensures StreamHere(cfg, s', n)
  {
    hide ViewOf, SameStream, StreamHere, Quietly;
    LineQuiet(r.name, TheWaiter(s, r).inHand.value, n);
    OtherSends(cfg, s, s', LogLine(r.name, TheWaiter(s, r).inHand.value), n);
  }

  lemma EndSends(cfg: Config, s: Sys, s': Sys, n: string)
    requires n in s.core.procs && n in s.waiters && n in cfg.retains && n in s'.core.procs && n in s'.waiters
    requires StreamHere(cfg, s, n) && SameStream(ViewOf(s, n), ViewOf(s', n))
    requires Sent(s, s', Announce, n)
    ensures StreamHere(cfg, s', n)
  {
    hide ViewOf, SameStream, StreamHere, Quietly;
    LineQuiet("", 0, n);
    OtherSends(cfg, s, s', SupervisorStopped, n);
  }

  predicate Sends(step: Step) {
    step.HolderEmit? || step.WaiterEmit? || step.ForwardEmit? || step.Announce? || step.CommitStep?
  }

  lemma UnsentStep(s: Sys, s': Sys, step: Step, n: string)
    requires Sent(s, s', step, n) && !Sends(step)
    ensures s'.events == s.events
    ensures (HolderOut(s') == HolderOut(s) || (HolderOut(s) == [] && Silent(HolderOut(s'), n)))
  {
    hide Silent, HolderOut;
  }

  lemma NotAbout(s: Sys, step: Step, n: string)
    requires !Notable(s, step, n)
    ensures step.WaiterEmit? || step.ForwardEmit? ==> step.run.name != n
  {
  }

  lemma LineQuiet(x: string, c: nat, n: string)
    ensures x != n ==> Quietly(LogLine(x, c), n)
    ensures Quietly(SupervisorStopped, n)
  {
  }

  lemma NothingSends(cfg: Config, s: Sys, s': Sys, n: string)
    requires n in s.core.procs && n in s.waiters && n in cfg.retains && n in s'.core.procs && n in s'.waiters
    requires StreamHere(cfg, s, n) && SameStream(ViewOf(s, n), ViewOf(s', n))
    requires s'.events == s.events
    requires HolderOut(s') == HolderOut(s) || (HolderOut(s) == [] && Silent(HolderOut(s'), n))
    ensures StreamHere(cfg, s', n)
  {
    hide ViewOf, StreamOk, SameStream, Silent;
    SilentNil(n);
    SameKeeps(ViewOf(s, n), ViewOf(s', n), HolderOut(s), HolderOut(s'), Scan(s.events, n, cfg.retains[n]), n, cfg.retains[n]);
  }

  lemma HolderSends(cfg: Config, s: Sys, s': Sys, n: string)
    requires n in s.core.procs && n in s.waiters && n in cfg.retains && n in s'.core.procs && n in s'.waiters
    requires StreamHere(cfg, s, n) && SameStream(ViewOf(s, n), ViewOf(s', n))
    requires HolderOut(s) != [] && HolderOut(s') == HolderOut(s)[1..] && s'.events == s.events + [HolderOut(s)[0]]
    ensures StreamHere(cfg, s', n)
  {
    hide ViewOf, StreamOk, SameStream, Observe;
    var retains := cfg.retains[n];
    SendStream(ViewOf(s, n), HolderOut(s), Scan(s.events, n, retains), n, retains);
    ScanSnoc(s.events, HolderOut(s)[0], n, retains);
    SameKeeps(ViewOf(s, n), ViewOf(s', n), HolderOut(s'), HolderOut(s'), Scan(s'.events, n, retains), n, retains);
  }

  ghost predicate Beheld(cfg: Config, s: Sys, s': Sys, n: string) {
    && n in s.core.procs && n in s.waiters && n in cfg.retains && n in s'.core.procs && n in s'.waiters
    && StreamHere(cfg, s, n) && SameStream(ViewOf(s, n), ViewOf(s', n))
  }

  /** Whatever a step sends that is not about process n, its reader does not mind. */
  lemma SentStream(cfg: Config, s: Sys, s': Sys, step: Step, n: string)
    requires Beheld(cfg, s, s', n) && !s.phase.Finished? && !Notable(s, step, n) && Sent(s, s', step, n)
    requires AllAbout(s)
    ensures n in s'.core.procs && n in s'.waiters && n in cfg.retains && StreamHere(cfg, s', n)
  {
    hide StreamHere, SameStream, ViewOf, Notable, Sent, Silent, HolderOut, AboutOk;
    NotAbout(s, step, n);
    if step.HolderEmit? {
      HolderSent(s, s', n);
      HolderSends(cfg, s, s', n);
    } else if step.CommitStep? {
      NotCommitted(s, s', n);
      NothingSends(cfg, s, s', n);
    } else if step.WaiterEmit? {
      WaiterSends(cfg, s, s', step.run, n);
    } else if step.ForwardEmit? {
      LineSends(cfg, s, s', step.run, n);
    } else if step.Announce? {
      EndSends(cfg, s, s', n);
    } else {
      UnsentStep(s, s', step, n);
      NothingSends(cfg, s, s', n);
    }
  }

  /** An event of process n that is sent by the holder, or one of another process. */
  lemma UnnoticedStream(cfg: Config, s: Sys, s': Sys, step: Step, n: string)
    requires Inv(cfg, s) && Next(cfg, s, s', step) && !s.phase.Finished? && n in s.core.procs && n in s.waiters
    requires n in cfg.retains
    requires StreamHere(cfg, s, n) && !Notable(s, step, n) && AllAbout(s)
    ensures n in s'.core.procs && n in s'.waiters && StreamHere(cfg, s', n)
  {
    hide Inv, Next, SameStream, StreamHere, ViewOf, AllAbout, Notable, Sent;
    NothingNoticed(cfg, s, s', step, n);
    NextSent(cfg, s, s', step, n);
    SentStream(cfg, s, s', step, n);
  }

  lemma HolderSent(s: Sys, s': Sys, n: string)
    requires Sent(s, s', HolderEmit, n) && !s.phase.Finished?
    ensures HolderOut(s) != [] && HolderOut(s') == HolderOut(s)[1..] && s'.events == s.events + [HolderOut(s)[0]]
  {
  }

  lemma SilentNil(n: string)
    ensures Silent([], n)
  {
  }

  lemma NotCommitted(s: Sys, s': Sys, n: string)
    requires Sent(s, s', CommitStep, n) && !Notable(s, CommitStep, n)
    ensures HolderOut(s) == [] && Silent(HolderOut(s'), n) && s'.events == s.events
  {
  }

  lemma OthersQuiet(s: Sys, r: Run, n: string)
    requires HasWaiter(s, r) && r.name != n && TheWaiter(s, r).outbox != []
    requires AllAbout(s)
    ensures Quietly(TheWaiter(s, r).outbox[0], n)
  {
    assert AboutOk(s.waiters[r.name], r.name);
    assert About(TheWaiter(s, r).outbox, r.name);
  }

  lemma OtherSends(cfg: Config, s: Sys, s': Sys, e: Event, n: string)
    requires n in s.core.procs && n in s.waiters && n in cfg.retains && n in s'.core.procs && n in s'.waiters
    requires StreamHere(cfg, s, n) && SameStream(ViewOf(s, n), ViewOf(s', n)) && Quietly(e, n)
    requires HolderOut(s') == HolderOut(s) && s'.events == s.events + [e]
    ensures StreamHere(cfg, s', n)
  {
    hide ViewOf, StreamOk, SameStream, Quietly, Observe;
    var retains := cfg.retains[n];
    OtherEvent(ViewOf(s, n), HolderOut(s), Scan(s.events, n, retains), e, n, retains);
    ScanSnoc(s.events, e, n, retains);
    SameKeeps(ViewOf(s, n), ViewOf(s', n), HolderOut(s), HolderOut(s'), Scan(s'.events, n, retains), n, retains);
  }

  lemma CommitFacts(s: Sys, s': Sys, n: string)
    requires DoCommit(s, s') && At(s.holder, n).CommitAt?
    ensures n in s.core.procs && n in s'.core.procs && s'.core.procs[n] == Commit(s.core.procs[n])
    ensures s'.waiters == s.waiters
    ensures At(s'.holder, n).Spawn? && HolderOut(s) == [] && s'.events == s.events
    ensures HolderOut(s') == Changed(n, s.core.procs[n], Running) + [Started(n)]
  {
    hide Commit;
  }

  lemma SpawnFacts(s: Sys, s': Sys, n: string)
    requires DoSpawn(s, s') && At(s.holder, n).Spawn?
    ensures n in s.core.procs && n in s.waiters && s'.core == s.core && n in s'.waiters
    ensures s'.waiters[n] == s.waiters[n][s.core.procs[n].gen := Waiter(Live, 0, None, [])]
    ensures !At(s'.holder, n).Spawn? && HolderOut(s) == [] && HolderOut(s') == [] && s'.events == s.events
  {
  }

  lemma CommitOnly(cfg: Config, s: Sys, s': Sys, step: Step)
    requires Next(cfg, s, s', step)
    ensures (step.CommitStep? ==> DoCommit(s, s')) && (step.SpawnStep? ==> DoSpawn(s, s'))
  {
    hide DoCommit, DoSpawn;
  }

  lemma NotablePlace(s: Sys, step: Step, n: string)
    requires Notable(s, step, n) && RunOf(step).None?
    ensures if step.CommitStep? then At(s.holder, n).CommitAt? else step.SpawnStep? && At(s.holder, n).Spawn?
  {
    hide At;
  }

  lemma CommitHere(cfg: Config, s: Sys, s': Sys, step: Step, n: string)
    requires Inv(cfg, s) && Next(cfg, s, s', step) && n in s.core.procs && n in s.waiters && n in cfg.retains
    requires StreamHere(cfg, s, n) && Notable(s, step, n) && RunOf(step).None?
    ensures n in s'.core.procs && n in s'.waiters && StreamHere(cfg, s', n)
  {
    hide Frame, Next, UnitOk, StreamOk, Commit, Notable, At, TimerOf, Ahead, Changed, Observed, WaiterOut, Hand,
         DoCommit, DoSpawn;
    CommitOnly(cfg, s, s', step);
    NotablePlace(s, step, n);
    var v, m, retains := ViewOf(s, n), Scan(s.events, n, cfg.retains[n]), cfg.retains[n];
    if step.CommitStep? {
      CommitFacts(s, s', n);
      CommitStream(v, m, n, retains);
      SameKeeps(v.(p := Commit(v.p), at := Spawn(n)), ViewOf(s', n), HolderOut(s'), HolderOut(s'), m, n, retains);
    } else {
      SpawnFacts(s, s', n);
      SpawnStream(v, m, n, retains);
      SameKeeps(v.(ws := s'.waiters[n], at := Return), ViewOf(s', n), [], [], m, n, retains);
    }
  }

  /** What a notable step of a waiter leaves as it was. */
  lemma NotableWaiter(cfg: Config, s: Sys, s': Sys, step: Step, n: string)
    requires Inv(cfg, s) && Next(cfg, s, s', step) && n in s.core.procs && Notable(s, step, n) && RunOf(step).Some?
    ensures n in s.waiters && n in s'.core.procs && n in s'.waiters && RunOf(step) == Some(step.run)
    ensures step.run.name == n
    ensures step.ExitStep? || step.ForwardAdd? || step.ForwardEmit? || step.WaiterEmit?
    ensures step.run.gen in s.waiters[n] && Guarded(cfg, s, step)
    ensures s'.holder == s.holder && s'.core.procs[n] == RecordAfter(cfg, s, step, n)
    ensures s'.waiters[n] == s.waiters[n][step.run.gen := WaiterAfter(cfg, s, step, step.run)]
    ensures Sent(s, s', step, n)
  {
    hide Frame, Units, Next, RecordAfter, WaiterAfter, Approached, Sent, At;
    Effects(cfg, s, s', step, n);
    NextGuarded(cfg, s, s', step);
    NextSent(cfg, s, s', step, n);
    WaiterHolder(cfg, s, s', step);
  }

  lemma WaiterHolder(cfg: Config, s: Sys, s': Sys, step: Step)
    requires Next(cfg, s, s', step) && (step.ExitStep? || step.ForwardAdd? || step.ForwardEmit? || step.WaiterEmit?)
    ensures s'.holder == s.holder
  {
    hide CommandNext, MoveNext, TurnNext, StartNext, OutputNext, EndNext, RunNext;
    NotHolderStep(cfg, s, s', step);
    if OutputNext(cfg, s, s', step) { OutputFrame(cfg, s, s', step); } else { EndFrame(cfg, s, s', step); }
  }

  lemma NotHolderStep(cfg: Config, s: Sys, s': Sys, step: Step)
    requires Next(cfg, s, s', step) && (step.ExitStep? || step.ForwardAdd? || step.ForwardEmit? || step.WaiterEmit?)
    ensures OutputNext(cfg, s, s', step) || EndNext(cfg, s, s', step)
  {
    hide DoExit, DoForwardAdd, DoForwardEmit, DoWaiterEmit, OutputNext, EndNext;
  }

  ghost predicate NotableTo(cfg: Config, s: Sys, s': Sys, step: Step, r: Run, n: string)
    requires n in s.core.procs && n in s.waiters
  {
    && n in s'.core.procs && n in s'.waiters && r.name == n && r.gen in s.waiters[n] && Guarded(cfg, s, step)
    && s'.holder == s.holder && s'.core.procs[n] == RecordAfter(cfg, s, step, n)
    && s'.waiters[n] == s.waiters[n][r.gen := WaiterAfter(cfg, s, step, r)]
    && Sent(s, s', step, n)
  }

  lemma ExitHere(cfg: Config, s: Sys, s': Sys, r: Run, n: string)
    requires Inv(cfg, s) && !s.phase.Finished? && n in s.core.procs && n in s.waiters && n in cfg.retains
    requires StreamHere(cfg, s, n)
    requires NotableTo(cfg, s, s', ExitStep(r), r, n)
    ensures StreamHere(cfg, s', n)
  {
    hide Frame, UnitOk, StreamOk, Exit, ExitEvents, ExitRestarts, AddLog, At, TimerOf, Ahead, Observe, Observed,
         WaiterOut, Hand, Silent;
    var v, out, m, retains, k := ViewOf(s, n), HolderOut(s), Scan(s.events, n, cfg.retains[n]), cfg.retains[n], r.gen;
    SilentNil(n);
    ExitStream(v, out, m, n, retains, ExitRestarts(cfg.policy[n], v.p, s.core.stopping, v.ws[k].phase.outcome));
    SameKeeps(v.(p := s'.core.procs[n], ws := s'.waiters[n]), ViewOf(s', n), out, HolderOut(s'), m, n, retains);
  }

  lemma AddHere(cfg: Config, s: Sys, s': Sys, r: Run, n: string)
    requires Inv(cfg, s) && !s.phase.Finished? && n in s.core.procs && n in s.waiters && n in cfg.retains
    requires StreamHere(cfg, s, n)
    requires NotableTo(cfg, s, s', ForwardAdd(r), r, n)
    ensures StreamHere(cfg, s', n)
  {
    hide Frame, UnitOk, StreamOk, Exit, ExitEvents, ExitRestarts, AddLog, At, TimerOf, Ahead, Observe, Observed,
         WaiterOut, Hand, Silent;
    var v, out, m, retains, k := ViewOf(s, n), HolderOut(s), Scan(s.events, n, cfg.retains[n]), cfg.retains[n], r.gen;
    SilentNil(n);
    AddStream(v, out, m, n, retains, k);
    SameKeeps(v.(p := s'.core.procs[n], ws := s'.waiters[n]), ViewOf(s', n), out, HolderOut(s'), m, n, retains);
  }

  lemma LineHere(cfg: Config, s: Sys, s': Sys, r: Run, n: string)
    requires Inv(cfg, s) && !s.phase.Finished? && n in s.core.procs && n in s.waiters && n in cfg.retains
    requires StreamHere(cfg, s, n)
    requires NotableTo(cfg, s, s', ForwardEmit(r), r, n)
    ensures StreamHere(cfg, s', n)
  {
    hide Frame, UnitOk, StreamOk, Exit, ExitEvents, ExitRestarts, AddLog, At, TimerOf, Ahead, Observe, Observed,
         WaiterOut, Hand, Silent;
    var v, out, m, retains, k := ViewOf(s, n), HolderOut(s), Scan(s.events, n, cfg.retains[n]), cfg.retains[n], r.gen;
    SendLineStream(v, out, m, n, retains, k);
    ScanSnoc(s.events, LogLine(n, v.ws[k].inHand.value), n, retains);
    SameKeeps(v.(ws := s'.waiters[n]), ViewOf(s', n), out, HolderOut(s'), Scan(s'.events, n, retains), n, retains);
  }

  lemma SendHere(cfg: Config, s: Sys, s': Sys, r: Run, n: string)
    requires Inv(cfg, s) && !s.phase.Finished? && n in s.core.procs && n in s.waiters && n in cfg.retains
    requires StreamHere(cfg, s, n)
    requires NotableTo(cfg, s, s', WaiterEmit(r), r, n)
    ensures StreamHere(cfg, s', n)
  {
    hide Frame, UnitOk, StreamOk, Exit, ExitEvents, ExitRestarts, AddLog, At, TimerOf, Ahead, Observe, Observed,
         WaiterOut, Hand, Silent;
    var v, out, m, retains, k := ViewOf(s, n), HolderOut(s), Scan(s.events, n, cfg.retains[n]), cfg.retains[n], r.gen;
    SendExitStream(v, out, m, n, retains, k);
    ScanSnoc(s.events, v.ws[k].outbox[0], n, retains);
    SameKeeps(v.(ws := s'.waiters[n]), ViewOf(s', n), out, HolderOut(s'), Scan(s'.events, n, retains), n, retains);
  }

  lemma WaiterHere(cfg: Config, s: Sys, s': Sys, step: Step, n: string)
    requires Inv(cfg, s) && Next(cfg, s, s', step) && !s.phase.Finished? && n in s.core.procs && n in s.waiters
    requires n in cfg.retains
    requires StreamHere(cfg, s, n) && Notable(s, step, n) && RunOf(step).Some?
    ensures n in s'.core.procs && n in s'.waiters && StreamHere(cfg, s', n)
  {
    hide Inv, Next, Notable, StreamHere, Guarded, RecordAfter, WaiterAfter, Sent;
    NotableWaiter(cfg, s, s', step, n);
    match step
    case ExitStep(r) => ExitHere(cfg, s, s', r, n);
    case ForwardAdd(r) => AddHere(cfg, s, s', r, n);
    case ForwardEmit(r) => LineHere(cfg, s, s', r, n);
    case WaiterEmit(r) => SendHere(cfg, s, s', r, n);
  }

  // ---------- What a stream without complaint looks like ----------

  predicate IsStart(e: Event, n: string) {
    e.Started? && e.process == n
  }

  predicate IsExit(e: Event, n: string) {
    e.ProcessExited? && e.process == n
  }

  predicate IsLine(e: Event, n: string) {
    e.LogLine? && e.process == n
  }

  /** Before position i a run of process n has started and not exited. */
  ghost predicate OpenAt(events: seq<Event>, n: string, i: nat)
    requires i <= |events|
  {
    exists a :: 0 <= a < i && IsStart(events[a], n) && forall k :: a < k < i ==> !IsExit(events[k], n)
  }

  function Lines(events: seq<Event>, n: string): nat {
    if events == [] then 0
    else Lines(events[..|events| - 1], n) + if IsLine(events[|events| - 1], n) then 1 else 0
  }

  /** Starts and exits of the process alternate, lines and exits belong to an open run,
      and with retention the lines are numbered without gaps from the first run on, without
      it by zero. */
  ghost predicate WellFormed(events: seq<Event>, n: string, retains: bool) {
    forall i :: 0 <= i < |events| ==> Proper(events, n, retains, i)
  }

  ghost predicate Proper(events: seq<Event>, n: string, retains: bool, i: nat)
    requires i < |events|
  {
    && (IsStart(events[i], n) ==> !OpenAt(events, n, i))
    && (IsExit(events[i], n) || IsLine(events[i], n) ==> OpenAt(events, n, i))
    && (IsLine(events[i], n) ==> events[i].cursor == NextCursor(Lines(events[..i], n), retains))
  }

  lemma {:induction false} ScanOpen(events: seq<Event>, n: string, retains: bool)
    ensures Scan(events, n, retains).running <==> OpenAt(events, n, |events|)
    decreases |events|
  {
    if events != [] {
      var front, e := events[..|events| - 1], events[|events| - 1];
      ScanOpen(front, n, retains);
      OpenSnoc(events, n);
    }
  }

  lemma OpenSnoc(events: seq<Event>, n: string)
    requires events != []
    ensures OpenAt(events, n, |events|) <==>
      IsStart(events[|events| - 1], n) || (!IsExit(events[|events| - 1], n) && OpenAt(events[..|events| - 1], n, |events| - 1))
  {
    var front, e := events[..|events| - 1], events[|events| - 1];
    if IsStart(e, n) {
      assert IsStart(events[|events| - 1], n);
    } else if OpenAt(front, n, |front|) && !IsExit(e, n) {
      var a :| 0 <= a < |front| && IsStart(front[a], n) && forall k :: a < k < |front| ==> !IsExit(front[k], n);
      assert IsStart(events[a], n);
      forall k | a < k < |events| ensures !IsExit(events[k], n) {
        if k < |front| { assert events[k] == front[k]; }
      }
    }
    if OpenAt(events, n, |events|) && !IsStart(e, n) {
      var a :| 0 <= a < |events| && IsStart(events[a], n) && forall k :: a < k < |events| ==> !IsExit(events[k], n);
      assert IsStart(front[a], n);
      forall k | a < k < |front| ensures !IsExit(front[k], n) {
        assert front[k] == events[k];
      }
    }
  }

  lemma OpenPrefix(events: seq<Event>, n: string, i: nat)
    requires events != [] && i < |events|
    ensures OpenAt(events, n, i) <==> OpenAt(events[..|events| - 1], n, i)
  {
    var front := events[..|events| - 1];
    forall a | 0 <= a < i ensures front[a] == events[a] {
    }
    if OpenAt(events, n, i) {
      var a :| 0 <= a < i && IsStart(events[a], n) && forall k :: a < k < i ==> !IsExit(events[k], n);
      assert IsStart(front[a], n);
    }
    if OpenAt(front, n, i) {
      var a :| 0 <= a < i && IsStart(front[a], n) && forall k :: a < k < i ==> !IsExit(front[k], n);
      assert IsStart(events[a], n);
    }
  }

  lemma ProperPrefix(events: seq<Event>, n: string, retains: bool, i: nat)
    requires events != [] && i < |events| - 1
    ensures Proper(events, n, retains, i) <==> Proper(events[..|events| - 1], n, retains, i)
  {
    hide OpenAt;
    OpenPrefix(events, n, i);
    assert events[..|events| - 1][..i] == events[..i];
  }

  /** The reader has no complaint exactly about the well-formed streams. */
  lemma {:induction false} ScanMeaning(events: seq<Event>, n: string, retains: bool)
    ensures Scan(events, n, retains).ok <==> WellFormed(events, n, retains)
    ensures Scan(events, n, retains).ok && retains ==> Scan(events, n, retains).cursor == Lines(events, n)
    decreases |events|
  {
    if events != [] {
      var front, last := events[..|events| - 1], |events| - 1;
      ScanMeaning(front, n, retains);
      ScanOpen(front, n, retains);
      OpenPrefix(events, n, last);
      WellFormedSnoc(events, n, retains);
      ProperLast(events, n, retains);
    }
  }

  lemma WellFormedSnoc(events: seq<Event>, n: string, retains: bool)
    requires events != []
    ensures WellFormed(events, n, retains) <==> WellFormed(events[..|events| - 1], n, retains) && Proper(events, n, retains, |events| - 1)
  {
    hide Proper;
    var front := events[..|events| - 1];
    forall i | 0 <= i < |front| ensures Proper(events, n, retains, i) <==> Proper(front, n, retains, i) {
      ProperPrefix(events, n, retains, i);
    }
  }

  lemma ProperLast(events: seq<Event>, n: string, retains: bool)
    requires events != []
    ensures var e, i := events[|events| - 1], |events| - 1;
            Proper(events, n, retains, i) <==>
              && (IsStart(e, n) ==> !OpenAt(events, n, i))
              && (IsExit(e, n) || IsLine(e, n) ==> OpenAt(events, n, i))
              && (IsLine(e, n) ==> e.cursor == NextCursor(Lines(events[..i], n), retains))
  {
  }

  // ---------- The end of the stream ----------

  predicate Ending(phase: RunPhase) {
    phase.StoppingAll? || phase.Draining? || phase.Announced? || phase.Finished?
  }

  /** Run ends only after launches have been shut off, and announces the end only when
      every waiter has returned. */
  ghost predicate EndingOk(s: Sys) {
    && (Ending(s.phase) ==> s.core.stopping)
    && (s.core.stopping && s.holder.Busy? ==> !Launching(s.holder.pc))
    && (s.phase.Announced? || s.phase.Finished? ==> forall n :: n in s.waiters ==> s.waiters[n] == map[])
  }

  lemma CommandEnding(cfg: Config, s: Sys, s': Sys, step: Step)
    requires EndingOk(s) && CommandNext(cfg, s, s', step)
    ensures EndingOk(s')
  {
    hide IsStartOrder, IsFullStopOrder, IsStopOrder;
  }

  lemma MoveEnding(cfg: Config, s: Sys, s': Sys, step: Step)
    requires EndingOk(s) && MoveNext(cfg, s, s', step)
    ensures EndingOk(s')
  {
    hide AllDone, Startable, HasWaiter, ResumeSet;
  }

  lemma TurnEnding(cfg: Config, s: Sys, s': Sys, step: Step)
    requires PhaseOk(s) && EndingOk(s) && TurnNext(cfg, s, s', step)
    ensures EndingOk(s')
  {
    hide MarkOne, MarkEvents, Admit, Skip, TurnStopping, LeaveTimer, DepsReady, Startable;
  }

  lemma StartEnding(cfg: Config, s: Sys, s': Sys, step: Step)
    requires EndingOk(s) && StartNext(cfg, s, s', step)
    ensures EndingOk(s')
  {
    hide AllDone, Launch, FailStart, Commit;
  }

  lemma OutputEnding(cfg: Config, s: Sys, s': Sys, step: Step)
    requires EndingOk(s) && (OutputNext(cfg, s, s', step) || EndNext(cfg, s, s', step))
    ensures EndingOk(s')
  {
    hide OutputNext, EndNext, HasWaiter;
    if OutputNext(cfg, s, s', step) { OutputFrame(cfg, s, s', step); OutputGuarded(cfg, s, s', step); OutputRun(cfg, s, s', step); }
    else { EndFrame(cfg, s, s', step); EndGuarded(cfg, s, s', step); EndRun(cfg, s, s', step); }
    if s.phase.Announced? || s.phase.Finished? { NoRun(s, RunOf(step).value); }
  }

  lemma OutputRun(cfg: Config, s: Sys, s': Sys, step: Step)
    requires OutputNext(cfg, s, s', step)
    ensures RunOf(step).Some?
  {
    hide DoWaiterEmit, DoForwardAdd, DoForwardEmit, DoOutput, DoProcessExit, DoTimerFires;
  }

  lemma EndRun(cfg: Config, s: Sys, s': Sys, step: Step)
    requires EndNext(cfg, s, s', step)
    ensures RunOf(step).Some?
  {
    hide DoExit, DoStale, DoClose, DoReserve, DoCancelSeen, DoTimerTake, DoTimerLapse;
  }

  lemma NoRun(s: Sys, r: Run)
    requires EndingOk(s) && (s.phase.Announced? || s.phase.Finished?)
    ensures !HasWaiter(s, r)
  {
  }

  lemma RunEnding(cfg: Config, s: Sys, s': Sys, step: Step)
    requires EndingOk(s) && RunNext(cfg, s, s', step)
    ensures EndingOk(s')
  {
  }

  lemma EndingKeeps(cfg: Config, s: Sys, s': Sys, step: Step)
    requires PhaseOk(s) && EndingOk(s) && Next(cfg, s, s', step)
    ensures EndingOk(s')
  {
    hide EndingOk, PhaseOk, CommandNext, MoveNext, TurnNext, StartNext, OutputNext, EndNext, RunNext;
    if CommandNext(cfg, s, s', step) { CommandEnding(cfg, s, s', step); }
    else if MoveNext(cfg, s, s', step) { MoveEnding(cfg, s, s', step); }
    else if TurnNext(cfg, s, s', step) { TurnEnding(cfg, s, s', step); }
    else if StartNext(cfg, s, s', step) { StartEnding(cfg, s, s', step); }
    else if OutputNext(cfg, s, s', step) { OutputEnding(cfg, s, s', step); }
    else if EndNext(cfg, s, s', step) { OutputEnding(cfg, s, s', step); }
    else { RunEnding(cfg, s, s', step); }
  }

  // ---------- Over a whole run ----------

  /** The reader of process n has no complaint, and between runs at the end. */
  ghost predicate ReaderOk(cfg: Config, s: Sys, n: string)
    requires n in s.core.procs && n in s.waiters && n in cfg.retains
  {
    if s.phase.Finished? then
      var m := Scan(s.events, n, cfg.retains[n]);
      m.ok && !m.running && (cfg.retains[n] ==> m.cursor <= s.core.procs[n].logged)
    else StreamHere(cfg, s, n)
  }

  ghost predicate StreamsOk(cfg: Config, s: Sys) {
    && AllAbout(s)
    && (forall n :: n in s.core.procs && n in s.waiters && n in cfg.retains ==> ReaderOk(cfg, s, n))
  }

  /** With no waiter and no launch under way a reader has seen everything. */
  lemma ReaderDone(cfg: Config, s: Sys, n: string)
    requires EndingOk(s) && s.phase.Announced? && n in s.core.procs && n in s.waiters && n in cfg.retains
    requires StreamHere(cfg, s, n)
    ensures var m := Scan(s.events, n, cfg.retains[n]); m.ok && !m.running && m.cursor <= s.core.procs[n].logged
  {
    SilentPlay(Scan(s.events, n, cfg.retains[n]), HolderOut(s), n, cfg.retains[n]);
  }

  lemma FrozenStream(cfg: Config, s: Sys, s': Sys, step: Step, n: string)
    requires Next(cfg, s, s', step) && s.phase.Finished?
    ensures s'.events == s.events
  {
    hide Next;
    NextSent(cfg, s, s', step, n);
    if step.Announce? { AnnounceEarly(cfg, s, s', step); }
  }

  lemma AnnounceEarly(cfg: Config, s: Sys, s': Sys, step: Step)
    requires Next(cfg, s, s', step) && step.Announce?
    ensures s.phase.Draining?
  {
  }

  /** How the phase comes to and stays at its end. */
  lemma FinishStep(cfg: Config, s: Sys, s': Sys, step: Step)
    requires PhaseOk(s) && Next(cfg, s, s', step)
    ensures s'.phase.Finished? ==> s.phase.Finished? || (s.phase.Announced? && step.CloseEvents? && s'.events == s.events)
    ensures s.phase.Finished? ==> s'.phase.Finished?
  {
    hide CommandNext, MoveNext, TurnNext, StartNext, OutputNext, EndNext, RunNext;
    if CommandNext(cfg, s, s', step) { CommandFinish(cfg, s, s', step); }
    else if MoveNext(cfg, s, s', step) { MoveFrame(cfg, s, s', step); }
    else if TurnNext(cfg, s, s', step) { TurnFinish(cfg, s, s', step); }
    else if StartNext(cfg, s, s', step) { StartFrame(cfg, s, s', step); }
    else if OutputNext(cfg, s, s', step) { OutputFrame(cfg, s, s', step); }
    else if EndNext(cfg, s, s', step) { EndFrame(cfg, s, s', step); }
    else { RunFinish(cfg, s, s', step); }
  }

  lemma CommandFinish(cfg: Config, s: Sys, s': Sys, step: Step)
    requires CommandNext(cfg, s, s', step)
    ensures s'.phase.Finished? <==> s.phase.Finished?
  {
    hide IsStartOrder, IsFullStopOrder, IsStopOrder;
  }

  lemma TurnFinish(cfg: Config, s: Sys, s': Sys, step: Step)
    requires PhaseOk(s) && TurnNext(cfg, s, s', step)
    ensures s'.phase.Finished? <==> s.phase.Finished?
  {
    hide MarkOne, MarkEvents, Admit, Skip, TurnStopping, LeaveTimer, DepsReady, Startable;
  }

  lemma RunFinish(cfg: Config, s: Sys, s': Sys, step: Step)
    requires RunNext(cfg, s, s', step)
    ensures s'.phase.Finished? ==> s.phase.Finished? || (s.phase.Announced? && step.CloseEvents? && s'.events == s.events)
    ensures s.phase.Finished? ==> s'.phase.Finished?
  {
  }

  lemma ReaderKeeps(cfg: Config, s: Sys, s': Sys, step: Step, n: string)
    requires Inv(cfg, s) && PhaseOk(s) && EndingOk(s) && StreamsOk(cfg, s) && Next(cfg, s, s', step)
    requires n in s.core.procs && n in s.waiters && n in cfg.retains
    ensures n in s'.core.procs && n in s'.waiters && ReaderOk(cfg, s', n)
    ensures AboutOk(s'.waiters[n], n)
  {
    hide Inv, PhaseOk, EndingOk, Next, StreamHere, AboutOk, Notable, RecordAfter, WaitersAfter, Approached;
    Effects(cfg, s, s', step, n);
    AboutAfter(cfg, s, step, n);
    FinishStep(cfg, s, s', step);
    assert ReaderOk(cfg, s, n);
    if s.phase.Finished? {
      FrozenStream(cfg, s, s', step, n);
      LoggedRecord(cfg, s, step, n);
    } else if s'.phase.Finished? {
      LoggedRecord(cfg, s, step, n);
      ReaderDone(cfg, s, n);
    } else if !Notable(s, step, n) {
      UnnoticedStream(cfg, s, s', step, n);
    } else if RunOf(step).Some? {
      WaiterHere(cfg, s, s', step, n);
    } else {
      CommitHere(cfg, s, s', step, n);
    }
  }

  ghost predicate EventInv(cfg: Config, s: Sys) {
    Inv(cfg, s) && PhaseOk(s) && EndingOk(s) && StreamsOk(cfg, s)
  }

  lemma RetainsKeys(cfg: Config, s: Sys)
    requires Inv(cfg, s)
    ensures s.core.procs.Keys == s.waiters.Keys == cfg.retains.Keys == cfg.deps.Keys
  {
  }

  lemma EventsKeep(cfg: Config, s: Sys, s': Sys, step: Step)
    requires EventInv(cfg, s) && Next(cfg, s, s', step)
    ensures EventInv(cfg, s')
  {
    hide Inv, PhaseOk, EndingOk, Next, ReaderOk, AboutOk;
    NextKeeps(cfg, s, s', step);
    PhaseKeeps(cfg, s, s', step);
    EndingKeeps(cfg, s, s', step);
    RetainsKeys(cfg, s);
    RetainsKeys(cfg, s');
    forall n | n in cfg.deps ensures n in s'.core.procs && n in s'.waiters && ReaderOk(cfg, s', n) && AboutOk(s'.waiters[n], n) {
      ReaderKeeps(cfg, s, s', step, n);
    }
  }

  lemma EventsInit(cfg: Config, s: Sys)
    requires Init(cfg, s)
    ensures EventInv(cfg, s)
  {
    hide Inv;
    InitKeeps(cfg, s);
  }

  lemma {:induction false} RunStreams(cfg: Config, trace: seq<Sys>, steps: seq<Step>, i: nat)
    requires Trace(cfg, trace, steps) && i < |trace|
    ensures EventInv(cfg, trace[i])
  {
    hide Init, Next, EventInv;
    if i == 0 {
      EventsInit(cfg, trace[0]);
    } else {
      RunStreams(cfg, trace, steps, i - 1);
      assert Next(cfg, trace[i - 1], trace[i - 1 + 1], steps[i - 1]);
      EventsKeep(cfg, trace[i - 1], trace[i], steps[i - 1]);
    }
  }

  /** The event stream is well-formed at every point of every run, announces no line that is
      not in the buffer yet, and is complete when it has been closed: every start has its
      exit. */
  lemma WellFormedStream(cfg: Config, trace: seq<Sys>, steps: seq<Step>, i: nat, n: string)
    requires Trace(cfg, trace, steps) && i < |trace| && n in cfg.deps
    ensures n in cfg.retains && WellFormed(trace[i].events, n, cfg.retains[n]) && n in trace[i].core.procs
    ensures cfg.retains[n] ==> Lines(trace[i].events, n) <= trace[i].core.procs[n].logged
    ensures trace[i].phase.Finished? ==> !OpenAt(trace[i].events, n, |trace[i].events|)
  {
    hide Next, Init, Inv, PhaseOk, EndingOk, AboutOk, StreamOk, WellFormed, OpenAt, Trace;
    RunStreams(cfg, trace, steps, i);
    var s, retains := trace[i], cfg.retains;
    RetainsKeys(cfg, s);
    assert ReaderOk(cfg, s, n);
    ScanMeaning(s.events, n, retains[n]);
    ScanOpen(s.events, n, retains[n]);
    if !s.phase.Finished? { ReaderContent(cfg, s, n); }
  }

  lemma ReaderContent(cfg: Config, s: Sys, n: string)
    requires n in s.core.procs && n in s.waiters && n in cfg.retains && StreamHere(cfg, s, n)
    ensures var m := Scan(s.events, n, cfg.retains[n]); m.ok && (cfg.retains[n] ==> m.cursor <= s.core.procs[n].logged)
  {
    var m, retains := Scan(s.events, n, cfg.retains[n]), cfg.retains[n];
    PlayOk(Play(m, HolderOut(s), n, retains), WaiterOut(s.waiters[n], s.core.procs[n].gen), n, retains);
    PlayOk(m, HolderOut(s), n, retains);
  }
}
