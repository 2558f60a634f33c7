/** The worker process as a whole: the supervisor and the session server that publishes its
    events, as one machine. Every run of it is a run of the attach and publish protocol, so
    what that protocol promises a client holds of what the supervisor's commands print. */
module Composition {
  import opened Options
  import opened DependencyGraph
  import StopOrder
  import opened LogRing
  import opened Lifecycle
  import opened SupervisorMachine
  import opened SupervisorUnit
  import opened SupervisorInvariant
  import opened SupervisorEffects
  import opened SupervisorStops
  import opened SupervisorCompletion
  import opened SupervisorEvents
  import Session = AttachProtocol
  import AttachInvariant
  import Headless
  import ExactlyOnce

  type Entry = Session.Entry

  // ---------- The machine ----------

  /** held is the entry each run's forwarder added last. */
  datatype World = World(sys: Sys, server: Session.Server, held: map<Run, Entry>)

  /** A step of the supervisor, with the entry it adds if it adds one, or of the server. */
  datatype Act =
    | OfSupervisor(step: Step, entry: Entry)
    | OfServer(serverStep: Session.Step)

  /** What the server's event loop makes of an event; the end of the stream is no message. */
  function OnWire(e: Event, entry: Entry): seq<Session.Event> {
    match e
    case LogLine(n, c) => [Session.Line(n, c, entry)]
    case SupervisorStopped => []
    case _ => [Session.Other(e.process)]
  }

  /** The event channel after a step that has sent at most one event. */
  function Channel(sent: seq<Session.Event>, events: seq<Event>, events': seq<Event>, entry: Entry): seq<Session.Event> {
    if |events'| == |events| + 1 then sent + OnWire(events'[|events|], entry) else sent
  }

  /** The log buffers and the event channel after a step of the supervisor. A forwarder sends
      the entry it holds. */
  function Fed(w: World, sys': Sys, step: Step, entry: Entry): Session.Server {
    var server := w.server;
    match step
    case ForwardAdd(r) =>
      if r.name in server.added then server.(added := server.added[r.name := server.added[r.name] + [entry]]) else server
    case ForwardEmit(r) =>
      server.(sent := Channel(server.sent, w.sys.events, sys'.events, if r in w.held then w.held[r] else entry))
    case _ => server.(sent := Channel(server.sent, w.sys.events, sys'.events, entry))
  }

  /** Run is called by the event loop once it serves. */
  ghost predicate DoSupervisor(cfg: Config, w: World, w': World, step: Step, entry: Entry) {
    && Next(cfg, w.sys, w'.sys, step)
    && (step.RunBegin? ==> w.server.phase.Serving?)
    && w'.server == Fed(w, w'.sys, step, entry)
    && w'.held == if step.ForwardAdd? then w.held[step.run := entry] else w.held
  }

  predicate FromSupervisor(step: Session.Step) {
    step.AddLine? || step.SendLine? || step.SendOther?
  }

  /** The event loop ends when the event channel has been closed. */
  ghost predicate DoServer(limits: map<string, int>, w: World, w': World, step: Session.Step) {
    && !FromSupervisor(step) && (step.Finish? ==> w.sys.phase.Finished?)
    && Session.Next(limits, w.server, w'.server, step)
    && w' == w.(server := w'.server)
  }

  ghost predicate Acts(cfg: Config, limits: map<string, int>, w: World, w': World, act: Act) {
    match act
    case OfSupervisor(step, entry) => DoSupervisor(cfg, w, w', step, entry)
    case OfServer(step) => DoServer(limits, w, w', step)
  }

  /** One log limit for every process, and retention where it is positive. */
  ghost predicate Limited(cfg: Config, limits: map<string, int>) {
    && limits.Keys == cfg.deps.Keys == cfg.retains.Keys
    && forall n :: n in limits && n in cfg.retains ==> (cfg.retains[n] <==> limits[n] > 0)
  }

  ghost predicate Begins(cfg: Config, limits: map<string, int>, w: World) {
    Limited(cfg, limits) && Init(cfg, w.sys) && Session.Init(limits, w.server) && w.held == map[]
  }

  ghost predicate Runs(cfg: Config, limits: map<string, int>, worlds: seq<World>, acts: seq<Act>) {
    && |worlds| == |acts| + 1
    && Begins(cfg, limits, worlds[0])
    && forall i :: 0 <= i < |acts| ==> Acts(cfg, limits, worlds[i], worlds[i + 1], acts[i])
  }

  /** The worker takes every step its parts can take, but that Run is called when the event loop
      serves and the loop ends after the supervisor. */
  lemma WorkerGoesOn(cfg: Config, limits: map<string, int>, w: World, step: Step, sys': Sys, entry: Entry,
                     serverStep: Session.Step, server': Session.Server)
    ensures Next(cfg, w.sys, sys', step) && (step.RunBegin? ==> w.server.phase.Serving?) ==>
              exists w' :: Acts(cfg, limits, w, w', OfSupervisor(step, entry)) && w'.sys == sys'
    ensures Session.Next(limits, w.server, server', serverStep) && !FromSupervisor(serverStep) && (serverStep.Finish? ==> w.sys.phase.Finished?) ==>
              exists w' :: Acts(cfg, limits, w, w', OfServer(serverStep)) && w'.server == server'
  {
    hide Next, Session.Next, Fed;
    var w1 := World(sys', Fed(w, sys', step, entry), if step.ForwardAdd? then w.held[step.run := entry] else w.held);
    var w2 := w.(server := server');
    if Next(cfg, w.sys, sys', step) && (step.RunBegin? ==> w.server.phase.Serving?) { assert Acts(cfg, limits, w, w1, OfSupervisor(step, entry)); }
    if Session.Next(limits, w.server, server', serverStep) && !FromSupervisor(serverStep) && (serverStep.Finish? ==> w.sys.phase.Finished?) {
      assert Acts(cfg, limits, w, w2, OfServer(serverStep));
    }
  }

  // ---------- Only forwarders announce lines ----------

  predicate NoLines(events: seq<Event>) {
    forall e :: e in events ==> !e.LogLine?
  }

  ghost predicate WaitersSilent(ws: map<nat, Waiter>) {
    forall k :: k in ws ==> NoLines(ws[k].outbox)
  }

  ghost predicate OnlyForwarders(s: Sys) {
    NoLines(HolderOut(s)) && forall n :: n in s.waiters ==> WaitersSilent(s.waiters[n])
  }

  lemma NotInHolder(s: Sys, s': Sys, step: Step, n: string, c: nat)
    requires Sent(s, s', step, n) && NoLines(HolderOut(s))
    ensures LogLine(n, c) !in HolderOut(s')
  {
    hide HolderOut, At, Stream, HasWaiter, TheWaiter;
    assert !Quietly(LogLine(n, c), n);
  }

  /** What is in the holder's outbox after a step. */
  lemma HolderSilent(cfg: Config, s: Sys, s': Sys, step: Step)
    requires Next(cfg, s, s', step) && NoLines(HolderOut(s))
    ensures NoLines(HolderOut(s'))
  {
    hide Next, HolderOut, Sent;
    forall e | e in HolderOut(s') ensures !e.LogLine? {
      if e.LogLine? {
        NextSent(cfg, s, s', step, e.process);
        NotInHolder(s, s', step, e.process, e.cursor);
      }
    }
  }

  lemma WaiterSilent(cfg: Config, s: Sys, step: Step, r: Run)
    requires HasWaiter(s, r) && NoLines(TheWaiter(s, r).outbox)
    ensures NoLines(WaiterAfter(cfg, s, step, r).outbox)
  {
    hide ExitRestarts, AddLog, ExitState;
  }

  lemma WaitersStaySilent(cfg: Config, s: Sys, step: Step, n: string)
    requires n in s.core.procs && n in s.waiters && WaitersSilent(s.waiters[n])
    ensures WaitersSilent(WaitersAfter(cfg, s, step, n))
  {
    hide WaiterAfter;
    if RunOf(step).Some? && RunOf(step).value.name == n && RunOf(step).value.gen in s.waiters[n] {
      WaiterSilent(cfg, s, step, RunOf(step).value);
    }
  }

  lemma ForwardersKeep(cfg: Config, s: Sys, s': Sys, step: Step)
    requires Inv(cfg, s) && OnlyForwarders(s) && Next(cfg, s, s', step)
    ensures OnlyForwarders(s')
  {
    hide Next, Inv, NoLines, WaitersSilent, RecordAfter, WaitersAfter, Approached;
    HolderSilent(cfg, s, s', step);
    SameProcesses(cfg, s, s', step);
    forall n | n in s'.waiters ensures WaitersSilent(s'.waiters[n]) {
      Effects(cfg, s, s', step, n);
      WaitersStaySilent(cfg, s, step, n);
    }
  }

  lemma SameProcesses(cfg: Config, s: Sys, s': Sys, step: Step)
    requires Inv(cfg, s) && Next(cfg, s, s', step)
    ensures s.core.procs.Keys == s.waiters.Keys == s'.core.procs.Keys == s'.waiters.Keys == cfg.deps.Keys
  {
    hide Next, Units, ConfigOk, DoneOk;
    NextKeeps(cfg, s, s', step);
  }

  // ---------- The line in a forwarder's hand ----------

  /** The cursor the current run's forwarder has still to send. */
  function InHand(s: Sys, n: string): Option<nat>
    requires n in s.core.procs && n in s.waiters
  {
    Hand(s.waiters[n], s.core.procs[n].gen)
  }

  predicate Takes(step: Step, n: string) {
    step.ForwardAdd? && step.run.name == n
  }

  predicate Gives(step: Step, n: string) {
    step.ForwardEmit? && step.run.name == n
  }

  /** How a step changes what the forwarder of process n holds. */
  ghost predicate HandStep(cfg: Config, s: Sys, s': Sys, step: Step, n: string)
    requires n in s.core.procs && n in s.waiters && n in s'.core.procs && n in s'.waiters
  {
    var p, p', hand, hand' := s.core.procs[n], s'.core.procs[n], InHand(s, n), InHand(s', n);
    && (hand'.Some? ==> p'.gen == p.gen)
    && if Takes(step, n) then
         && n in cfg.retains && step.run.gen == p.gen && hand.None? && hand' == Some(p'.logged)
         && p'.logged == if cfg.retains[n] then p.logged + 1 else p.logged
       else
         && p'.logged == p.logged
         && if Gives(step, n) then step.run.gen == p.gen && hand.Some? && hand'.None? else hand' == hand
  }

  /** Only the current run has output, or an exit, to send. */
  lemma BusyIsCurrent(s: Sys, r: Run)
    requires HasWaiter(s, r) && UnitOk(ViewOf(s, r.name))
    requires Watched(TheWaiter(s, r).phase) || TheWaiter(s, r).inHand.Some? || TheWaiter(s, r).outbox != []
    ensures r.gen == s.core.procs[r.name].gen
  {
    assert WaiterOk(s.core.procs[r.name], r.gen, TheWaiter(s, r));
  }

  /** The forwarder adds a line or sends it. */
  lemma ForwardHand(cfg: Config, s: Sys, s': Sys, step: Step, r: Run)
    requires HasWaiter(s, r) && UnitOk(ViewOf(s, r.name)) && Guarded(cfg, s, step)
    requires step == ForwardAdd(r) || step == ForwardEmit(r)
    requires r.name in s'.core.procs && s'.core.procs[r.name] == RecordAfter(cfg, s, step, r.name)
    requires r.name in s'.waiters && s'.waiters[r.name] == WaitersAfter(cfg, s, step, r.name)
    ensures HandStep(cfg, s, s', step, r.name)
  {
    hide UnitOk, ExitEvents, ExitRestarts, ExitState, At, Ahead, TimerOf, Exit;
    BusyIsCurrent(s, r);
  }

  /** The waiter decides, or sends an event of its outbox. */
  lemma WaiterHand(cfg: Config, s: Sys, s': Sys, step: Step, r: Run)
    requires HasWaiter(s, r) && UnitOk(ViewOf(s, r.name)) && Guarded(cfg, s, step)
    requires step == ExitStep(r) || step == WaiterEmit(r)
    requires r.name in s'.core.procs && s'.core.procs[r.name] == RecordAfter(cfg, s, step, r.name)
    requires r.name in s'.waiters && s'.waiters[r.name] == WaitersAfter(cfg, s, step, r.name)
    ensures HandStep(cfg, s, s', step, r.name)
  {
    hide UnitOk, ExitEvents, ExitRestarts, ExitState, At, Ahead, TimerOf, AddLog;
    BusyIsCurrent(s, r);
  }

  /** A launched process gets its waiter. */
  lemma SpawnHand(cfg: Config, s: Sys, s': Sys, step: Step, n: string)
    requires n in s.core.procs && n in s.waiters && UnitOk(ViewOf(s, n))
    requires (step.CommitStep? && At(s.holder, n).CommitAt?) || (step.SpawnStep? && At(s.holder, n).Spawn?)
    requires n in s'.core.procs && s'.core.procs[n] == RecordAfter(cfg, s, step, n)
    requires n in s'.waiters && s'.waiters[n] == WaitersAfter(cfg, s, step, n)
    ensures HandStep(cfg, s, s', step, n)
  {
    hide At, Ahead, TimerOf;
    assert s.core.procs[n].gen !in s.waiters[n];
  }

  /** A new generation has nothing in hand. */
  lemma FreshHand(cfg: Config, s: Sys, s': Sys, step: Step, n: string)
    requires Inv(cfg, s) && n in s.core.procs && n in s.waiters && n in s'.core.procs && n in s'.waiters
    requires s'.core.procs[n] == RecordAfter(cfg, s, step, n) && SameStream(ViewOf(s, n), ViewOf(s', n))
    requires !Takes(step, n) && !Gives(step, n)
    ensures HandStep(cfg, s, s', step, n)
  {
    hide Frame, UnitOk, RecordAfter, At, Ahead, TimerOf, Launches, Observed, WaiterOut;
    GenRecord(cfg, s, step, n);
    if Launches(s, step, n) {
      LaunchesAt(s, step, n);
      SameAfterLaunch(ViewOf(s, n));
    }
  }

  lemma NotableHand(cfg: Config, s: Sys, s': Sys, step: Step, n: string)
    requires n in s.core.procs && n in s.waiters && UnitOk(ViewOf(s, n)) && Guarded(cfg, s, step) && Notable(s, step, n)
    requires n in s'.core.procs && s'.core.procs[n] == RecordAfter(cfg, s, step, n)
    requires n in s'.waiters && s'.waiters[n] == WaitersAfter(cfg, s, step, n)
    ensures HandStep(cfg, s, s', step, n)
  {
    hide UnitOk, RecordAfter, WaitersAfter, At, HandStep, Guarded, HasWaiter, ViewOf;
    if step.CommitStep? || step.SpawnStep? {
      SpawnHand(cfg, s, s', step, n);
    } else {
      GuardedWaiter(cfg, s, step);
      if step.ForwardAdd? || step.ForwardEmit? { ForwardHand(cfg, s, s', step, step.run); } else { WaiterHand(cfg, s, s', step, step.run); }
    }
  }

  lemma HandAfter(cfg: Config, s: Sys, s': Sys, step: Step, n: string)
    requires Inv(cfg, s) && Next(cfg, s, s', step) && n in s.core.procs
    ensures n in s.waiters && n in s'.core.procs && n in s'.waiters && HandStep(cfg, s, s', step, n)
  {
    hide Next, Inv, UnitOk, RecordAfter, WaitersAfter, Approached, Notable, HandStep, SameStream, Guarded, ViewOf;
    Effects(cfg, s, s', step, n);
    UnitHere(cfg, s, n);
    NextGuarded(cfg, s, s', step);
    if Notable(s, step, n) {
      NotableHand(cfg, s, s', step, n);
    } else {
      NothingNoticed(cfg, s, s', step, n);
      if Takes(step, n) || Gives(step, n) { ForwardsNotable(s, step, n); }
      FreshHand(cfg, s, s', step, n);
    }
  }

  lemma ForwardsNotable(s: Sys, step: Step, n: string)
    requires Takes(step, n) || Gives(step, n)
    ensures Notable(s, step, n)
  {
  }

  lemma UnitHere(cfg: Config, s: Sys, n: string)
    requires Inv(cfg, s) && n in s.core.procs && n in s.waiters
    ensures UnitOk(ViewOf(s, n))
  {
    hide UnitOk, Frame;
  }

  lemma GuardedWaiter(cfg: Config, s: Sys, step: Step)
    requires Guarded(cfg, s, step) && RunOf(step).Some?
    ensures HasWaiter(s, RunOf(step).value)
  {
  }

  // ---------- What holds between the two ----------

  /** Every line added has been announced, but for the one in hand, which is the last. */
  ghost predicate Ledger(limits: map<string, int>, w: World, n: string)
    requires n in w.sys.core.procs && n in w.sys.waiters && n in limits && n in w.server.added
  {
    var p, added, hand := w.sys.core.procs[n], w.server.added[n], InHand(w.sys, n);
    && Session.LinesOf(w.server.sent, n) + (if hand.Some? then 1 else 0) == |added|
    && p.logged == (if limits[n] > 0 then |added| else 0)
    && (hand.Some? ==>
          hand.value == p.logged && Run(n, p.gen) in w.held && w.held[Run(n, p.gen)] == added[|added| - 1])
  }

  ghost predicate Ledgers(cfg: Config, limits: map<string, int>, w: World) {
    && Limited(cfg, limits) && w.server.added.Keys == limits.Keys
    && forall n :: n in limits && n in w.sys.core.procs && n in w.sys.waiters && n in w.server.added ==> Ledger(limits, w, n)
  }

  /** While the supervisor runs the event loop serves, and it ends only after the supervisor. */
  ghost predicate Together(w: World) {
    && (Began(w.sys) && !w.sys.phase.Finished? ==> w.server.phase.Serving?)
    && (w.server.closing || w.server.phase.Finishing? ==> w.sys.phase.Finished?)
  }

  ghost predicate WorldInv(cfg: Config, limits: map<string, int>, w: World) {
    && EventInv(cfg, w.sys) && OnlyForwarders(w.sys) && Ledgers(cfg, limits, w) && Together(w)
    && Session.Inv(limits, w.server)
  }

  // ---------- Steps of the supervisor ----------

  /** The one event a step may send, and whose line it is. */
  ghost predicate Speaks(s: Sys, s': Sys, step: Step) {
    || s'.events == s.events
    || (!s.phase.Finished? && |s'.events| == |s.events| + 1 && s'.events == s.events + [s'.events[|s.events|]]
        && var e := s'.events[|s.events|];
           if step.ForwardEmit? then HasWaiter(s, step.run) && TheWaiter(s, step.run).inHand.Some?
                                     && e == LogLine(step.run.name, TheWaiter(s, step.run).inHand.value)
           else !e.LogLine?)
  }


  lemma NextSpeaks(cfg: Config, s: Sys, s': Sys, step: Step)
    requires Next(cfg, s, s', step) && OnlyForwarders(s) && EndingOk(s)
    ensures Speaks(s, s', step) && (step.ForwardEmit? ==> s'.events != s.events)
  {
    hide Next, HolderOut, At, Silent, Changed, HasWaiter, TheWaiter;
    NextSent(cfg, s, s', step, "");
    if step.Announce? { AnnounceEarly(cfg, s, s', step); }
    SilentHeads(s, step);
  }

  lemma SilentHeads(s: Sys, step: Step)
    requires OnlyForwarders(s) && EndingOk(s)
    ensures HolderOut(s) != [] ==> !HolderOut(s)[0].LogLine?
    ensures step.WaiterEmit? && HasWaiter(s, step.run) && TheWaiter(s, step.run).outbox != [] ==> !TheWaiter(s, step.run).outbox[0].LogLine?
    ensures step.ForwardEmit? && HasWaiter(s, step.run) ==> !s.phase.Finished?
  {
    hide HolderOut;
    if step.WaiterEmit? && HasWaiter(s, step.run) { assert WaitersSilent(s.waiters[step.run.name]); }
  }

  /** The event a step sends that is not a forwarder's. */
  lemma OtherOnWire(w: World, w': World, step: Step, entry: Entry) returns (process: string)
    requires w'.server == Fed(w, w'.sys, step, entry) && Speaks(w.sys, w'.sys, step) && !step.ForwardAdd? && !step.ForwardEmit?
    ensures w'.server == w.server || (!w.sys.phase.Finished? && w'.server == w.server.(sent := w.server.sent + [Session.Other(process)]))
  {
    hide HasWaiter, TheWaiter;
    process := "";
    if w'.sys.events != w.sys.events {
      var e := w'.sys.events[|w.sys.events|];
      if !e.SupervisorStopped? { process := e.process; }
    }
    assert w.server.sent + [] == w.server.sent;
  }

  lemma LineOnWire(w: World, w': World, step: Step, entry: Entry)
    requires w'.server == Fed(w, w'.sys, step, entry) && Speaks(w.sys, w'.sys, step) && step.ForwardEmit?
    requires w'.sys.events != w.sys.events && step.run in w.held
    ensures HasWaiter(w.sys, step.run) && TheWaiter(w.sys, step.run).inHand.Some? && !w.sys.phase.Finished?
    ensures w'.server == w.server.(sent := w.server.sent + [Session.Line(step.run.name, TheWaiter(w.sys, step.run).inHand.value, w.held[step.run])])
  {
  }

  /** A waiter means that Run has begun and not finished. */
  lemma WaiterServes(cfg: Config, w: World, r: Run)
    requires Inv(cfg, w.sys) && EndingOk(w.sys) && Together(w) && HasWaiter(w.sys, r)
    ensures w.server.phase.Serving?
  {
    hide Frame, UnitOk;
    UnitHere(cfg, w.sys, r.name);
    if !Began(w.sys) { NotBegunEmpty(ViewOf(w.sys, r.name)); }
  }

  lemma NotBegunEmpty(v: View)
    requires UnitOk(v) && v.ahead
    ensures v.ws == map[]
  {
  }

  // ---------- The ledgers ----------

  lemma LedgerAt(cfg: Config, limits: map<string, int>, w: World, n: string)
    requires Inv(cfg, w.sys) && Ledgers(cfg, limits, w) && n in limits
    ensures n in w.sys.core.procs && n in w.sys.waiters && n in w.server.added && n in cfg.retains
    ensures Ledger(limits, w, n) && (cfg.retains[n] <==> limits[n] > 0)
  {
    hide Units, Ledger, ConfigOk, DoneOk;
  }

  /** What a forwarder holds is the last line added, with its cursor. */
  lemma HeldIsLast(cfg: Config, limits: map<string, int>, w: World, r: Run)
    requires Inv(cfg, w.sys) && Ledgers(cfg, limits, w) && HasWaiter(w.sys, r) && TheWaiter(w.sys, r).inHand.Some?
    ensures r.name in limits && r in w.held && r.name in w.server.added
    ensures var added, count := w.server.added[r.name], Session.LinesOf(w.server.sent, r.name);
            && count + 1 == |added| && w.held[r] == added[count]
            && TheWaiter(w.sys, r).inHand.value == if limits[r.name] > 0 then count + 1 else 0
  {
    hide Inv, Ledgers, UnitOk, Session.LinesOf;
    ProcessKeys(cfg, limits, w);
    UnitHere(cfg, w.sys, r.name);
    BusyIsCurrent(w.sys, r);
    LedgerAt(cfg, limits, w, r.name);
  }

  lemma ProcessKeys(cfg: Config, limits: map<string, int>, w: World)
    requires Inv(cfg, w.sys) && Ledgers(cfg, limits, w)
    ensures limits.Keys == w.sys.core.procs.Keys == w.sys.waiters.Keys == w.server.added.Keys
  {
    hide Units, Ledger, ConfigOk, DoneOk;
  }

  lemma AddLedger(cfg: Config, limits: map<string, int>, w: World, w': World, r: Run, entry: Entry, n: string)
    requires n in w.sys.core.procs && n in w.sys.waiters && n in w'.sys.core.procs && n in w'.sys.waiters
    requires n in limits && n in cfg.retains && (cfg.retains[n] <==> limits[n] > 0) && n in w.server.added && r.name in w.server.added
    requires Ledger(limits, w, n) && HandStep(cfg, w.sys, w'.sys, ForwardAdd(r), n)
    requires w'.server == w.server.(added := w.server.added[r.name := w.server.added[r.name] + [entry]]) && w'.held == w.held[r := entry]
    ensures Ledger(limits, w', n)
  {
    hide Hand, Session.LinesOf;
  }

  lemma SendLedger(cfg: Config, limits: map<string, int>, w: World, w': World, step: Step, e: Session.Event, n: string)
    requires n in w.sys.core.procs && n in w.sys.waiters && n in w'.sys.core.procs && n in w'.sys.waiters
    requires n in limits && n in w.server.added
    requires Ledger(limits, w, n) && HandStep(cfg, w.sys, w'.sys, step, n) && !step.ForwardAdd?
    requires w'.server == w.server.(sent := w.server.sent + [e]) && w'.held == w.held
    requires e.Line? && e.process == n <==> Gives(step, n)
    ensures Ledger(limits, w', n)
  {
    hide Hand, Session.LinesOf;
    AttachInvariant.LinesSnoc(w.server.sent, e, n);
  }

  lemma SameLedger(cfg: Config, limits: map<string, int>, w: World, w': World, step: Step, n: string)
    requires n in w.sys.core.procs && n in w.sys.waiters && n in w'.sys.core.procs && n in w'.sys.waiters
    requires n in limits && n in w.server.added
    requires Ledger(limits, w, n) && HandStep(cfg, w.sys, w'.sys, step, n) && !step.ForwardAdd? && !step.ForwardEmit?
    requires w'.server == w.server && w'.held == w.held
    ensures Ledger(limits, w', n)
  {
    hide Hand, Session.LinesOf;
  }

  // ---------- Every step of the supervisor is one of the protocol ----------

  /** A line is added to a buffer. */
  lemma AddRefines(cfg: Config, limits: map<string, int>, w: World, w': World, r: Run, entry: Entry)
    requires WorldInv(cfg, limits, w) && DoSupervisor(cfg, w, w', ForwardAdd(r), entry)
    ensures Session.Next(limits, w.server, w'.server, Session.AddLine(r.name, entry))
    ensures r.name in w.server.added && w'.server == w.server.(added := w.server.added[r.name := w.server.added[r.name] + [entry]])
  {
    hide Next, EventInv, OnlyForwarders, Ledgers, Together, Session.Inv, Inv, EndingOk, HasWaiter;
    InvParts(cfg, limits, w);
    ProcessKeys(cfg, limits, w);
    NextGuarded(cfg, w.sys, w'.sys, ForwardAdd(r));
    GuardedWaiter(cfg, w.sys, ForwardAdd(r));
    KnownRun(w.sys, r);
    WaiterServes(cfg, w, r);
  }

  lemma InvParts(cfg: Config, limits: map<string, int>, w: World)
    requires WorldInv(cfg, limits, w)
    ensures Inv(cfg, w.sys) && EndingOk(w.sys) && PhaseOk(w.sys) && OnlyForwarders(w.sys) && Ledgers(cfg, limits, w) && Together(w)
  {
    hide Inv, EndingOk, PhaseOk, StreamsOk, OnlyForwarders, Ledgers, Together, Session.Inv;
  }

  lemma KnownRun(s: Sys, r: Run)
    requires HasWaiter(s, r)
    ensures r.name in s.core.procs
  {
  }

  /** The event of the line in hand is sent: it is the next line of its process. */
  lemma SendRefines(cfg: Config, limits: map<string, int>, w: World, w': World, r: Run, entry: Entry)
    requires WorldInv(cfg, limits, w) && DoSupervisor(cfg, w, w', ForwardEmit(r), entry)
    ensures Session.Next(limits, w.server, w'.server, Session.SendLine(r.name))
    ensures exists e: Session.Event ::
      e.Line? && e.process == r.name && w'.server == w.server.(sent := w.server.sent + [e])
  {
    hide Next, EventInv, OnlyForwarders, Ledgers, Together, Session.Inv, Inv, EndingOk, PhaseOk, Speaks, Fed, HasWaiter, TheWaiter,
         Session.LinesOf;
    InvParts(cfg, limits, w);
    NextSpeaks(cfg, w.sys, w'.sys, ForwardEmit(r));
    NextGuarded(cfg, w.sys, w'.sys, ForwardEmit(r));
    GuardedWaiter(cfg, w.sys, ForwardEmit(r));
    WaiterServes(cfg, w, r);
    HeldIsLast(cfg, limits, w, r);
    LineOnWire(w, w', ForwardEmit(r), entry);
    var e := Session.Line(r.name, TheWaiter(w.sys, r).inHand.value, w.held[r]);
    assert e.Line? && e.process == r.name && w'.server == w.server.(sent := w.server.sent + [e]);
  }

  /** Any other step sends nothing, or an event without a line. */
  lemma OtherRefines(cfg: Config, limits: map<string, int>, w: World, w': World, step: Step, entry: Entry) returns (process: string)
    requires WorldInv(cfg, limits, w) && DoSupervisor(cfg, w, w', step, entry) && !step.ForwardAdd? && !step.ForwardEmit?
    ensures w'.server == w.server || w'.server == w.server.(sent := w.server.sent + [Session.Other(process)])
    ensures w'.server == w.server || Session.Next(limits, w.server, w'.server, Session.SendOther(process))
  {
    hide Next, EventInv, OnlyForwarders, Ledgers, Session.Inv, Inv, EndingOk, PhaseOk, Speaks, Fed;
    InvParts(cfg, limits, w);
    NextSpeaks(cfg, w.sys, w'.sys, step);
    process := OtherOnWire(w, w', step, entry);
  }

  lemma SupervisorRefines(cfg: Config, limits: map<string, int>, w: World, w': World, step: Step, entry: Entry)
    returns (serverStep: Session.Step)
    requires WorldInv(cfg, limits, w) && DoSupervisor(cfg, w, w', step, entry)
    ensures w'.server == w.server || Session.Next(limits, w.server, w'.server, serverStep)
  {
    hide WorldInv, DoSupervisor, Session.Next;
    if step.ForwardAdd? {
      AddRefines(cfg, limits, w, w', step.run, entry);
      serverStep := Session.AddLine(step.run.name, entry);
    } else if step.ForwardEmit? {
      SendRefines(cfg, limits, w, w', step.run, entry);
      serverStep := Session.SendLine(step.run.name);
    } else {
      var process := OtherRefines(cfg, limits, w, w', step, entry);
      serverStep := Session.SendOther(process);
    }
  }

  // ---------- The invariant ----------

  lemma LedgerKeeps(cfg: Config, limits: map<string, int>, w: World, w': World, step: Step, entry: Entry, n: string)
    requires WorldInv(cfg, limits, w) && DoSupervisor(cfg, w, w', step, entry) && n in limits
    ensures n in w'.sys.core.procs && n in w'.sys.waiters && n in w'.server.added && Ledger(limits, w', n)
  {
    hide Next, WorldInv, Fed, Inv, Ledgers, EndingOk, PhaseOk, OnlyForwarders, Together, Ledger, HandStep, Session.Next;
    InvParts(cfg, limits, w);
    LedgerAt(cfg, limits, w, n);
    HandAfter(cfg, w.sys, w'.sys, step, n);
    if step.ForwardAdd? {
      AddRefines(cfg, limits, w, w', step.run, entry);
      AddLedger(cfg, limits, w, w', step.run, entry, n);
    } else if step.ForwardEmit? {
      SendRefines(cfg, limits, w, w', step.run, entry);
      var e: Session.Event :| e.Line? && e.process == step.run.name && w'.server == w.server.(sent := w.server.sent + [e]);
      SendLedger(cfg, limits, w, w', step, e, n);
    } else {
      var process := OtherRefines(cfg, limits, w, w', step, entry);
      if w'.server == w.server {
        SameLedger(cfg, limits, w, w', step, n);
      } else {
        SendLedger(cfg, limits, w, w', step, Session.Other(process), n);
      }
    }
  }

  lemma LedgersKeep(cfg: Config, limits: map<string, int>, w: World, w': World, step: Step, entry: Entry)
    requires WorldInv(cfg, limits, w) && DoSupervisor(cfg, w, w', step, entry)
    ensures Ledgers(cfg, limits, w')
  {
    hide Next, EventInv, OnlyForwarders, Together, Session.Inv, Ledger;
    forall n | n in limits ensures n in w'.sys.core.procs && n in w'.sys.waiters && n in w'.server.added && Ledger(limits, w', n) {
      LedgerKeeps(cfg, limits, w, w', step, entry, n);
    }
    hide Fed;
    AddedKeys(w, w', step, entry);
  }

  lemma AddedKeys(w: World, w': World, step: Step, entry: Entry)
    requires w'.server == Fed(w, w'.sys, step, entry)
    ensures w'.server.added.Keys == w.server.added.Keys && w'.server.phase == w.server.phase && w'.server.closing == w.server.closing
  {
    hide Channel;
    match step
    case ForwardAdd(r) => if r.name in w.server.added { GrownKeys(w.server.added, r.name, entry); }
    case _ =>
  }

  lemma GrownKeys(added: map<string, seq<Entry>>, n: string, entry: Entry)
    requires n in added
    ensures added[n := added[n] + [entry]].Keys == added.Keys
  {
  }

  /** Run begins by its own step only. */
  lemma BeginStep(cfg: Config, s: Sys, s': Sys, step: Step)
    requires Inv(cfg, s) && PhaseOk(s) && Next(cfg, s, s', step) && !Began(s) && Began(s')
    ensures step.RunBegin?
  {
    hide Inv, PhaseOk, CommandNext, MoveNext, TurnNext, StartNext, OutputNext, EndNext, RunNext;
    if CommandNext(cfg, s, s', step) { CommandBegins(cfg, s, s', step); }
    else if MoveNext(cfg, s, s', step) { MoveFrame(cfg, s, s', step); }
    else if TurnNext(cfg, s, s', step) { TurnNeverBegins(cfg, s, s', step); }
    else if StartNext(cfg, s, s', step) { StartFrame(cfg, s, s', step); }
    else if OutputNext(cfg, s, s', step) { OutputFrame(cfg, s, s', step); }
    else if EndNext(cfg, s, s', step) { EndFrame(cfg, s, s', step); }
    else { RunNeverBegins(cfg, s, s', step); }
  }

  lemma CommandBegins(cfg: Config, s: Sys, s': Sys, step: Step)
    requires CommandNext(cfg, s, s', step) && !Began(s) && Began(s')
    ensures step.RunBegin?
  {
    hide IsStartOrder, IsFullStopOrder, StopOrder.IsStopOrder;
  }

  lemma TurnNeverBegins(cfg: Config, s: Sys, s': Sys, step: Step)
    requires Inv(cfg, s) && PhaseOk(s) && TurnNext(cfg, s, s', step) && !Began(s)
    ensures !Began(s')
  {
    hide Units, ConfigOk, DoneOk, MarkOne, MarkEvents, Admit, Skip, TurnStopping, LeaveTimer, DepsReady, Startable;
    TurnFrame(cfg, s, s', step);
  }

  lemma RunNeverBegins(cfg: Config, s: Sys, s': Sys, step: Step)
    requires RunNext(cfg, s, s', step) && !Began(s)
    ensures !Began(s')
  {
  }

  lemma TogetherKeeps(cfg: Config, w: World, w': World, step: Step, entry: Entry)
    requires Inv(cfg, w.sys) && PhaseOk(w.sys) && Together(w) && DoSupervisor(cfg, w, w', step, entry)
    ensures Together(w')
  {
    hide Inv, Next, Fed, PhaseOk, Began;
    AddedKeys(w, w', step, entry);
    FinishStep(cfg, w.sys, w'.sys, step);
    if !Began(w.sys) && Began(w'.sys) { BeginStep(cfg, w.sys, w'.sys, step); }
  }

  /** A step of the server leaves the buffers and the event channel alone. */
  lemma ServerKeeps(cfg: Config, limits: map<string, int>, w: World, w': World, step: Session.Step)
    requires WorldInv(cfg, limits, w) && DoServer(limits, w, w', step)
    ensures WorldInv(cfg, limits, w')
  {
    hide EventInv, OnlyForwarders, Ledgers, Session.Inv, Began, Session.Next;
    AttachInvariant.NextKeeps(limits, w.server, w'.server, step);
    ServerLeaves(limits, w.server, w'.server, step);
    SameLedgers(cfg, limits, w, w');
  }

  lemma ServerLeaves(limits: map<string, int>, s: Session.Server, s': Session.Server, step: Session.Step)
    requires Session.Next(limits, s, s', step) && !FromSupervisor(step)
    ensures s'.added == s.added && s'.sent == s.sent
    ensures s.phase.Serving? && !step.Finish? ==> s'.phase.Serving?
    ensures (s'.closing || s'.phase.Finishing?) ==> s.closing || s.phase.Finishing? || step.Finish?
  {
    hide Session.HandlerNext;
    if Session.HandlerNext(limits, s, s', step) { HandlerLeaves(limits, s, s', step); }
  }

  lemma HandlerLeaves(limits: map<string, int>, s: Session.Server, s': Session.Server, step: Session.Step)
    requires Session.HandlerNext(limits, s, s', step)
    ensures s'.added == s.added && s'.sent == s.sent && s'.phase == s.phase && s'.closing == s.closing
  {
  }

  lemma SameLedgers(cfg: Config, limits: map<string, int>, w: World, w': World)
    requires Ledgers(cfg, limits, w) && w' == w.(server := w'.server)
    requires w'.server.added == w.server.added && w'.server.sent == w.server.sent
    ensures Ledgers(cfg, limits, w')
  {
    hide Limited, Session.LinesOf, Hand;
    forall n | n in limits && n in w'.sys.core.procs && n in w'.sys.waiters && n in w'.server.added ensures Ledger(limits, w', n) {
      assert Ledger(limits, w, n);
    }
  }

  lemma WorldKeeps(cfg: Config, limits: map<string, int>, w: World, w': World, act: Act)
    requires WorldInv(cfg, limits, w) && Acts(cfg, limits, w, w', act)
    ensures WorldInv(cfg, limits, w')
  {
    hide EventInv, OnlyForwarders, Ledgers, Together, Session.Inv, Session.Next, DoServer, Next, Fed;
    match act
    case OfServer(step) => ServerKeeps(cfg, limits, w, w', step);
    case OfSupervisor(step, entry) =>
      InvOf(cfg, w.sys);
      EventsKeep(cfg, w.sys, w'.sys, step);
      ForwardersKeep(cfg, w.sys, w'.sys, step);
      LedgersKeep(cfg, limits, w, w', step, entry);
      TogetherKeeps(cfg, w, w', step, entry);
      var serverStep := SupervisorRefines(cfg, limits, w, w', step, entry);
      if w'.server != w.server { AttachInvariant.NextKeeps(limits, w.server, w'.server, serverStep); }
  }

  lemma InvOf(cfg: Config, s: Sys)
    requires EventInv(cfg, s)
    ensures Inv(cfg, s) && PhaseOk(s) && EndingOk(s)
  {
    hide Inv, PhaseOk, EndingOk, StreamsOk;
  }

  lemma WorldBegins(cfg: Config, limits: map<string, int>, w: World)
    requires Begins(cfg, limits, w)
    ensures WorldInv(cfg, limits, w)
  {
    hide EventInv, Session.Inv;
    EventsInit(cfg, w.sys);
    AttachInvariant.InitOk(limits, w.server);
  }

  lemma {:induction false} WorldsKeep(cfg: Config, limits: map<string, int>, worlds: seq<World>, acts: seq<Act>, i: nat)
    requires Runs(cfg, limits, worlds, acts) && i < |worlds|
    ensures WorldInv(cfg, limits, worlds[i])
  {
    hide Begins, Acts, WorldInv;
    if i == 0 {
      WorldBegins(cfg, limits, worlds[0]);
    } else {
      WorldsKeep(cfg, limits, worlds, acts, i - 1);
      assert Acts(cfg, limits, worlds[i - 1], worlds[i - 1 + 1], acts[i - 1]);
      WorldKeeps(cfg, limits, worlds[i - 1], worlds[i], acts[i - 1]);
    }
  }

  // ---------- Whole runs ----------

  /** Every run of the worker is, for its server, a run of the attach and publish protocol. */
  lemma {:induction false} WorkerRuns(cfg: Config, limits: map<string, int>, worlds: seq<World>, acts: seq<Act>, i: nat)
    returns (trace: seq<Session.Server>, steps: seq<Session.Step>)
    requires Runs(cfg, limits, worlds, acts) && i < |worlds|
    ensures trace != [] && Session.Trace(limits, trace, steps) && trace[|trace| - 1] == worlds[i].server
  {
    hide Acts, WorldInv, Begins, Session.Trace;
    if i == 0 {
      trace, steps := [worlds[0].server], [];
      TraceBegins(cfg, limits, worlds[0]);
    } else {
      trace, steps := WorkerRuns(cfg, limits, worlds, acts, i - 1);
      WorldsKeep(cfg, limits, worlds, acts, i - 1);
      assert Acts(cfg, limits, worlds[i - 1], worlds[i - 1 + 1], acts[i - 1]);
      var step := ActRefines(cfg, limits, worlds[i - 1], worlds[i], acts[i - 1]);
      if worlds[i].server != worlds[i - 1].server {
        TraceGoesOn(limits, trace, steps, worlds[i].server, step);
        trace, steps := trace + [worlds[i].server], steps + [step];
      }
    }
  }

  lemma TraceBegins(cfg: Config, limits: map<string, int>, w: World)
    requires Begins(cfg, limits, w)
    ensures Session.Trace(limits, [w.server], [])
  {
    hide Init;
  }

  lemma TraceGoesOn(limits: map<string, int>, trace: seq<Session.Server>, steps: seq<Session.Step>, s: Session.Server, step: Session.Step)
    requires Session.Trace(limits, trace, steps) && Session.Next(limits, trace[|trace| - 1], s, step)
    ensures Session.Trace(limits, trace + [s], steps + [step])
  {
    hide Session.Next, Session.Init;
    var trace', steps' := trace + [s], steps + [step];
    forall i | 0 <= i < |steps'| ensures Session.Next(limits, trace'[i], trace'[i + 1], steps'[i]) {
      if i < |steps| { assert Session.Next(limits, trace[i], trace[i + 1], steps[i]); }
    }
  }

  lemma ActRefines(cfg: Config, limits: map<string, int>, w: World, w': World, act: Act) returns (step: Session.Step)
    requires WorldInv(cfg, limits, w) && Acts(cfg, limits, w, w', act)
    ensures w'.server == w.server || Session.Next(limits, w.server, w'.server, step)
  {
    hide WorldInv, DoSupervisor, Session.Next;
    match act
    case OfServer(serverStep) => step := serverStep;
    case OfSupervisor(s, entry) => step := SupervisorRefines(cfg, limits, w, w', s, entry);
  }

  /** The lines process n has printed, in the order its forwarders added them. */
  function Printed(acts: seq<Act>, n: string): seq<Entry> {
    if acts == [] then []
    else
      var before, act := Printed(acts[..|acts| - 1], n), acts[|acts| - 1];
      if act.OfSupervisor? && Takes(act.step, n) then before + [act.entry] else before
  }

  /** The buffer of a process has been given exactly what the process printed. */
  lemma {:induction false} AddedIsPrinted(cfg: Config, limits: map<string, int>, worlds: seq<World>, acts: seq<Act>, i: nat, n: string)
    requires Runs(cfg, limits, worlds, acts) && i < |worlds| && n in limits
    ensures n in worlds[i].server.added && worlds[i].server.added[n] == Printed(acts[..i], n)
  {
    hide Acts, Begins;
    if i == 0 {
      NothingAdded(cfg, limits, worlds[0], n);
    } else {
      AddedIsPrinted(cfg, limits, worlds, acts, i - 1, n);
      assert Acts(cfg, limits, worlds[i - 1], worlds[i - 1 + 1], acts[i - 1]);
      AddedAfter(cfg, limits, worlds[i - 1], worlds[i], acts[i - 1], n);
      assert acts[..i][..i - 1] == acts[..i - 1] && acts[..i][i - 1] == acts[i - 1];
    }
  }

  lemma NothingAdded(cfg: Config, limits: map<string, int>, w: World, n: string)
    requires Begins(cfg, limits, w) && n in limits
    ensures n in w.server.added && w.server.added[n] == []
  {
    hide Init;
  }

  lemma AddedAfter(cfg: Config, limits: map<string, int>, w: World, w': World, act: Act, n: string)
    requires Acts(cfg, limits, w, w', act) && n in w.server.added
    ensures n in w'.server.added
    ensures w'.server.added[n] == w.server.added[n] + if act.OfSupervisor? && Takes(act.step, n) then [act.entry] else []
  {
    hide Next, Session.Next, Channel;
    match act
    case OfServer(step) => ServerLeaves(limits, w.server, w'.server, step);
    case OfSupervisor(step, entry) =>
  }

  /** Once the supervisor has finished, every line printed has been announced. */
  lemma AllAnnounced(cfg: Config, limits: map<string, int>, w: World, n: string)
    requires WorldInv(cfg, limits, w) && w.sys.phase.Finished? && n in limits
    ensures n in w.server.added && Session.LinesOf(w.server.sent, n) == |w.server.added[n]|
  {
    hide Inv, Ledgers, PhaseOk, OnlyForwarders, StreamsOk, Session.Inv, Together, Session.LinesOf;
    LedgerAt(cfg, limits, w, n);
    assert w.sys.waiters[n] == map[];
  }

  /** A client that has the result has been sent everything. */
  lemma ResultMeansFinished(cfg: Config, limits: map<string, int>, w: World, trace: seq<Session.Server>, steps: seq<Session.Step>, c: nat)
    requires WorldInv(cfg, limits, w) && trace != [] && Session.Trace(limits, trace, steps) && trace[|trace| - 1] == w.server
    requires Session.Known(w.server, c) && Session.Result in w.server.clients[c].delivered
    ensures w.sys.phase.Finished?
  {
    hide EventInv, OnlyForwarders, Ledgers, Session.Inv, Session.Trace, Session.ShareEnd;
    AttachInvariant.ShareOfClient(limits, trace, steps, |trace| - 1, c);
    var k := w.server.clients[c];
    var j :| 0 <= j < |k.delivered| && k.delivered[j] == Session.Result;
    assert k.delivered[j].Result? && w.server.closing;
  }

  /** The lines from the snapshot's window to its cursor, in some order, and then those up to
      end in cursor order: what a client has printed of one process. */
  ghost predicate HasPrinted(n: string, limit: int, lines: seq<Entry>, start: nat, end: nat, history: seq<Session.Event>, output: seq<Session.Event>) {
    && start <= end <= |lines|
    && multiset(Headless.Of(history, n))
         == multiset(ExactlyOnce.Numbered(n, lines, start - Retained(limit, lines[..start]), start))
    && Headless.Of(output, n) == Headless.Of(history, n) + ExactlyOnce.Numbered(n, lines, start, end)
  }

  /** End to end: whatever the supervisor does, whenever the client attaches, and however the
      lines of a process with retention are added around its snapshot, the client prints the
      window it found and then, each once and in order, the lines its process has printed
      since: those it has been sent so far, and all of them, to the last line of the last
      run, once it has the result. */
  lemma ClientPrintsOutput(cfg: Config, limits: map<string, int>, worlds: seq<World>, acts: seq<Act>, i: nat, c: nat, n: string,
                           collected: seq<Session.Event>, history: seq<Session.Event>)
    requires Runs(cfg, limits, worlds, acts) && i < |worlds| && n in limits && limits[n] > 0
    requires ExactlyOnce.Snapshotted(worlds[i].server, c)
    requires Headless.Collected(worlds[i].server.clients[c].history, collected)
    requires Headless.AllLines(history) && multiset(history) == multiset(collected)
    ensures var k := worlds[i].server.clients[c];
            && n in k.history
            && var lines, start, live := Printed(acts[..i], n), k.history[n].cursor, Headless.EventsOf(k.delivered);
               && k.from + |live| <= |worlds[i].server.sent| && live == worlds[i].server.sent[k.from..k.from + |live|]
               && var end: nat := if Session.Result in k.delivered then |lines|
                             else Headless.Max(start, Session.LinesOf(worlds[i].server.sent[..k.from + |live|], n));
                  HasPrinted(n, limits[n], lines, start, end, history, Headless.Received(Headless.Recalled(history), live).printed)
  {
    hide Runs, WorldInv, Session.Trace, Session.LinesOf, Headless.Of, Headless.Received, Headless.Recalled, Headless.EventsOf,
         ExactlyOnce.Numbered, Headless.Collected, Headless.AllLines;
    var s := worlds[i].server;
    var trace, steps := WorkerRuns(cfg, limits, worlds, acts, i);
    ExactlyOnce.PrintsExactlyOnce(limits, trace, steps, |trace| - 1, c, n, collected, history);
    AddedIsPrinted(cfg, limits, worlds, acts, i, n);
    WorldsKeep(cfg, limits, worlds, acts, i);
    ShareSent(limits, trace, steps, s, c);
    if Session.Result in s.clients[c].delivered {
      ResultMeansFinished(cfg, limits, worlds[i], trace, steps, c);
      AllAnnounced(cfg, limits, worlds[i], n);
      assert s.sent[..|s.sent|] == s.sent;
    }
  }

  // ---------- The whole stream ----------

  /** The events that become messages: all but the end of the stream. */
  function Real(events: seq<Event>): seq<Event> {
    if events == [] then []
    else Real(events[..|events| - 1]) + if events[|events| - 1].SupervisorStopped? then [] else [events[|events| - 1]]
  }

  lemma RealSnoc(events: seq<Event>, e: Event)
    ensures Real(events + [e]) == Real(events) + if e.SupervisorStopped? then [] else [e]
  {
    assert (events + [e])[..|events|] == events;
  }

  /** The message is about the event. */
  predicate About(e: Event, x: Session.Event) {
    if e.LogLine? then x.Line? && x.process == e.process && x.cursor == e.cursor
    else !e.SupervisorStopped? && x == Session.Other(e.process)
  }

  ghost predicate Carried(events: seq<Event>, sent: seq<Session.Event>) {
    |Real(events)| == |sent| && forall i :: 0 <= i < |sent| ==> About(Real(events)[i], sent[i])
  }

  lemma ChannelCarries(sent: seq<Session.Event>, events: seq<Event>, events': seq<Event>, entry: Entry)
    requires Carried(events, sent) && (events' == events || (|events'| == |events| + 1 && events' == events + [events'[|events|]]))
    ensures Carried(events', Channel(sent, events, events', entry))
  {
    hide Real;
    if events' != events { RealSnoc(events, events'[|events|]); }
  }

  lemma StepCarries(cfg: Config, limits: map<string, int>, w: World, w': World, act: Act)
    requires WorldInv(cfg, limits, w) && Acts(cfg, limits, w, w', act) && Carried(w.sys.events, w.server.sent)
    ensures Carried(w'.sys.events, w'.server.sent)
  {
    hide WorldInv, Carried, Channel, Next, Session.Next, OnlyForwarders, EndingOk, Inv, PhaseOk, Ledgers, Together;
    match act
    case OfServer(step) => ServerLeaves(limits, w.server, w'.server, step);
    case OfSupervisor(step, entry) =>
      InvParts(cfg, limits, w);
      NextSpeaks(cfg, w.sys, w'.sys, step);
      OneMore(w.sys, w'.sys, step);
      ChannelCarries(w.server.sent, w.sys.events, w'.sys.events, entry);
      if step.ForwardEmit? && step.run in w.held { ChannelCarries(w.server.sent, w.sys.events, w'.sys.events, w.held[step.run]); }
      if step.ForwardAdd? { AddsSilently(cfg, w.sys, w'.sys, step); }
  }

  lemma OneMore(s: Sys, s': Sys, step: Step)
    requires Speaks(s, s', step)
    ensures s'.events == s.events || (|s'.events| == |s.events| + 1 && s'.events == s.events + [s'.events[|s.events|]])
  {
    hide HasWaiter, TheWaiter;
  }

  lemma AddsSilently(cfg: Config, s: Sys, s': Sys, step: Step)
    requires Next(cfg, s, s', step) && step.ForwardAdd?
    ensures s'.events == s.events
  {
    hide Next;
    NextSent(cfg, s, s', step, "");
  }

  /** The wire carries the supervisor's stream, event by event and in order. */
  lemma {:induction false} WireIsStream(cfg: Config, limits: map<string, int>, worlds: seq<World>, acts: seq<Act>, i: nat)
    requires Runs(cfg, limits, worlds, acts) && i < |worlds|
    ensures Carried(worlds[i].sys.events, worlds[i].server.sent)
  {
    hide Acts, WorldInv, Begins, Carried;
    if i == 0 {
      WireBegins(cfg, limits, worlds[0]);
    } else {
      WireIsStream(cfg, limits, worlds, acts, i - 1);
      WorldsKeep(cfg, limits, worlds, acts, i - 1);
      assert Acts(cfg, limits, worlds[i - 1], worlds[i - 1 + 1], acts[i - 1]);
      StepCarries(cfg, limits, worlds[i - 1], worlds[i], acts[i - 1]);
    }
  }

  lemma WireBegins(cfg: Config, limits: map<string, int>, w: World)
    requires Begins(cfg, limits, w)
    ensures Carried(w.sys.events, w.server.sent)
  {
  }

  /** The same end to end for a process without retention: the client prints every line its
      process has printed since it attached and that it has been sent, each once and in order,
      and all of them once it has the result. */
  lemma ClientPrintsUnretained(cfg: Config, limits: map<string, int>, worlds: seq<World>, acts: seq<Act>, i: nat, c: nat, n: string,
                               collected: seq<Session.Event>, history: seq<Session.Event>)
    requires Runs(cfg, limits, worlds, acts) && i < |worlds| && n in limits && limits[n] <= 0
    requires ExactlyOnce.Snapshotted(worlds[i].server, c)
    requires Headless.Collected(worlds[i].server.clients[c].history, collected)
    requires Headless.AllLines(history) && multiset(history) == multiset(collected)
    ensures var s, k := worlds[i].server, worlds[i].server.clients[c];
            var lines, live := Printed(acts[..i], n), Headless.EventsOf(k.delivered);
            && k.from + |live| <= |s.sent|
            && var start := Session.LinesOf(s.sent[..k.from], n);
               var end := if Session.Result in k.delivered then |lines| else Session.LinesOf(s.sent[..k.from + |live|], n);
               && start <= end <= |lines|
               && Headless.Of(Headless.Received(Headless.Recalled(history), live).printed, n) == ExactlyOnce.Plain(n, lines, start, end)
  {
    hide Runs, WorldInv, Session.Trace, Session.LinesOf, Headless.Of, Headless.Received, Headless.Recalled, Headless.EventsOf,
         ExactlyOnce.Plain, Headless.Collected, Headless.AllLines;
    var s := worlds[i].server;
    var trace, steps := WorkerRuns(cfg, limits, worlds, acts, i);
    ExactlyOnce.PrintsAsSent(limits, trace, steps, |trace| - 1, c, n, collected, history);
    AddedIsPrinted(cfg, limits, worlds, acts, i, n);
    if Session.Result in s.clients[c].delivered {
      WorldsKeep(cfg, limits, worlds, acts, i);
      ResultMeansFinished(cfg, limits, worlds[i], trace, steps, c);
      AllAnnounced(cfg, limits, worlds[i], n);
      assert s.sent[..|s.sent|] == s.sent;
    }
  }

  /** And of everything that is no log line: the client prints the starts, exits, restarts and
      errors that were sent while it was attached, each once and in order. */
  lemma ClientPrintsOthers(cfg: Config, limits: map<string, int>, worlds: seq<World>, acts: seq<Act>, i: nat, c: nat,
                           history: seq<Session.Event>)
    requires Runs(cfg, limits, worlds, acts) && i < |worlds| && Session.Known(worlds[i].server, c) && Headless.AllLines(history)
    ensures var s, k := worlds[i].server, worlds[i].server.clients[c];
            var live := Headless.EventsOf(k.delivered);
            && k.from + |live| <= |s.sent|
            && Headless.Others(Headless.Received(Headless.Recalled(history), live).printed)
                 == Headless.Others(s.sent[k.from..k.from + |live|])
  {
    hide Runs, Session.Trace, Headless.Received, Headless.Recalled, Headless.EventsOf, Headless.Others, Headless.AllLines;
    var s := worlds[i].server;
    var trace, steps := WorkerRuns(cfg, limits, worlds, acts, i);
    ShareSent(limits, trace, steps, s, c);
    var live := Headless.EventsOf(s.clients[c].delivered);
    Headless.PrintsAllOthers(history, live);
    NoOthers(history);
    assert [] + Headless.Others(live) == Headless.Others(live);
  }

  lemma {:induction false} NoOthers(history: seq<Session.Event>)
    requires Headless.AllLines(history)
    ensures Headless.Others(history) == []
    decreases |history|
  {
    if history != [] {
      assert history[|history| - 1] in history;
      NoOthers(history[..|history| - 1]);
    }
  }

  lemma ShareSent(limits: map<string, int>, trace: seq<Session.Server>, steps: seq<Session.Step>, s: Session.Server, c: nat)
    requires trace != [] && Session.Trace(limits, trace, steps) && s == trace[|trace| - 1] && Session.Known(s, c)
    ensures var k, live := s.clients[c], Headless.EventsOf(s.clients[c].delivered);
            k.from + |live| <= |s.sent| && live == s.sent[k.from..k.from + |live|]
  {
    hide Session.Trace, Session.Inv, Headless.EventsOf;
    AttachInvariant.RunKeeps(limits, trace, steps, |trace| - 1);
    ExactlyOnce.SnapshotShare(limits, s, c);
  }
}
