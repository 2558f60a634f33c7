/** The attach and publish protocol of internal/session/server.go: one worker whose event
    loop publishes to at most one attached client, while handlers come and go. Each
    critical section of the server's lock, each log read under it, and each act of a
    connection is one step. */
module AttachProtocol {
  import opened Options
  import opened LogRing

  datatype Entry = Entry(time: int, text: string)

  datatype Event =
    | Line(process: string, cursor: int, entry: Entry)
    | Other(process: string)

  /** A message of the attachment stream: an event, or the final result. */
  datatype Message = Live(event: Event) | Result

  datatype Handler = Reading(left: seq<string>) | Encoding | Starting | Streaming | Draining | Closing | Leaving | Gone

  /** An attachment and its handler. done is its done channel; lost holds a message whose
      write failed; from and upTo count the messages published before it was attached
      and before it was detached. */
  datatype Client = Client(
    handler: Handler,
    history: map<string, Batch<Entry>>,
    queue: seq<Message>,
    delivered: seq<Message>,
    lost: seq<Message>,
    done: bool,
    from: nat,
    upTo: Option<nat>)

  datatype Phase = Waiting | Serving | Finishing | Over

  /** added is everything ever added to each process's log buffer, sent the supervisor's
      event stream, log the messages published so far. */
  datatype Server = Server(
    added: map<string, seq<Entry>>,
    sent: seq<Event>,
    log: seq<Message>,
    active: Option<nat>,
    lock: Option<nat>,
    clients: seq<Client>,
    started: bool,
    starts: nat,
    closing: bool,
    ended: bool,
    phase: Phase)

  /** The capacity of a client's queue. */
  const EventBufferSize := 1024

  function LinesOf(events: seq<Event>, n: string): nat {
    if events == [] then 0
    else LinesOf(events[..|events| - 1], n) + if events[|events| - 1].Line? && events[|events| - 1].process == n then 1 else 0
  }

  ghost predicate Init(limits: map<string, int>, s: Server) {
    s == Server(map n | n in limits :: [], [], [], None, None, [], false, 0, false, false, Waiting)
  }

  // ---------- Steps ----------

  datatype Step =
    | AddLine(name: string, entry: Entry)
    | SendLine(name: string)
    | SendOther(name: string)
    | Serve
    | Publish
    | Finish
    | End
    | GiveUp
    | Attach(names: seq<string>)
    | ReadLogs(client: nat)
    | Unlock(client: nat)
    | Encode(client: nat, ok: bool)
    | Start(client: nat)
    | Deliver(client: nat, ok: bool)
    | Drained(client: nat)
    | SeeDone(client: nat)
    | SeeEnd(client: nat)
    | Eof(client: nat)
    | Close(client: nat)
    | Cleanup(client: nat)

  /** A line enters the log buffer, */
  ghost predicate DoAddLine(s: Server, s': Server, n: string, e: Entry) {
    s.phase.Serving? && n in s.added && s' == s.(added := s.added[n := s.added[n] + [e]])
  }

  /** and its event is sent later, in order. */
  ghost predicate DoSendLine(limits: map<string, int>, s: Server, s': Server, n: string) {
    && s.phase.Serving? && n in s.added && n in limits && LinesOf(s.sent, n) < |s.added[n]|
    && var k := LinesOf(s.sent, n);
       s' == s.(sent := s.sent + [Line(n, if limits[n] > 0 then k + 1 else 0, s.added[n][k])])
  }

  /** A manual command can send other events before Run is called. */
  ghost predicate DoSendOther(s: Server, s': Server, n: string) {
    !s.closing && s' == s.(sent := s.sent + [Other(n)])
  }

  /** The first client has been prepared. */
  ghost predicate DoServe(s: Server, s': Server) {
    s.phase.Waiting? && s.starts > 0 && s' == s.(phase := Serving)
  }

  /** enqueueLocked: nobody listens; the client's queue has room; or the client is gone and
      is detached. With neither room nor an end in sight it blocks. */
  ghost predicate Enqueue(s: Server, s': Server, m: Message) {
    match s.active
    case None => s' == s.(log := s.log + [m])
    case Some(c) =>
      && c < |s.clients|
      && var k := s.clients[c];
         || (|k.queue| < EventBufferSize && s' == s.(log := s.log + [m], clients := s.clients[c := k.(queue := k.queue + [m])]))
         || (k.done && s' == s.(log := s.log + [m], active := None, clients := s.clients[c := k.(upTo := Some(|s.log|))]))
  }

  ghost predicate DoPublish(s: Server, s': Server) {
    s.phase.Serving? && s.lock.None? && |s.log| < |s.sent| && Enqueue(s, s', Live(s.sent[|s.log|]))
  }

  /** The supervisor's stream has ended: its result is the last message. */
  ghost predicate DoFinish(s: Server, s': Server) {
    s.phase.Serving? && s.lock.None? && |s.log| == |s.sent| && Enqueue(s.(closing := true, phase := Finishing), s', Result)
  }

  ghost predicate DoEnd(s: Server, s': Server) {
    s.phase.Finishing? && s' == s.(ended := true, phase := Over)
  }

  /** No client has attached in time, or the worker was cancelled before. */
  ghost predicate DoGiveUp(s: Server, s': Server) {
    s.phase.Waiting? && s' == s.(ended := true, phase := Over)
  }

  ghost predicate Enumerated(limits: map<string, int>, names: seq<string>) {
    forall n :: n in names <==> n in limits
  }

  /** attach takes the lock and the attachment; it is refused while the session is closing
      or another client is attached. */
  ghost predicate DoAttach(limits: map<string, int>, s: Server, s': Server, names: seq<string>) {
    && s.lock.None? && !s.closing && s.active.None? && Enumerated(limits, names)
    && s' == s.(active := Some(|s.clients|), lock := Some(|s.clients|),
                clients := s.clients + [Client(Reading(names), map[], [], [], [], false, |s.log|, None)])
  }

  predicate Known(s: Server, c: nat) {
    c < |s.clients|
  }

  function Put(s: Server, c: nat, k: Client): Server
    requires Known(s, c)
  {
    s.(clients := s.clients[c := k])
  }

  /** The handler reads the retained logs of one process; lines may be added in between. */
  ghost predicate DoReadLogs(limits: map<string, int>, s: Server, s': Server, c: nat) {
    && Known(s, c) && s.clients[c].handler.Reading? && s.clients[c].handler.left != []
    && var k, n := s.clients[c], s.clients[c].handler.left[0];
       n in limits && n in s.added
       && s' == Put(s, c, k.(history := k.history[n := Since(limits[n], s.added[n], 0)], handler := Reading(k.handler.left[1..])))
  }

  ghost predicate DoUnlock(s: Server, s': Server, c: nat) {
    && Known(s, c) && s.clients[c].handler == Reading([])
    && s' == Put(s, c, s.clients[c].(handler := Encoding)).(lock := None)
  }

  ghost predicate DoEncode(s: Server, s': Server, c: nat, ok: bool) {
    && Known(s, c) && s.clients[c].handler.Encoding?
    && s' == Put(s, c, s.clients[c].(handler := if ok then Starting else Closing))
  }

  /** The first client to get here lets the commands start. */
  ghost predicate DoStart(s: Server, s': Server, c: nat) {
    && Known(s, c) && s.clients[c].handler.Starting? && s.lock.None?
    && s' == Put(s, c, s.clients[c].(handler := Streaming))
             .(started := true, starts := if s.started then s.starts else s.starts + 1)
  }

  /** A queued message is written; the handler ends after the result or a failed write. */
  ghost predicate DoDeliver(s: Server, s': Server, c: nat, ok: bool) {
    && Known(s, c) && (s.clients[c].handler.Streaming? || s.clients[c].handler.Draining?) && s.clients[c].queue != []
    && var k, m := s.clients[c], s.clients[c].queue[0];
       s' == Put(s, c, k.(queue := k.queue[1..],
                          delivered := if ok then k.delivered + [m] else k.delivered,
                          lost := if ok then k.lost else [m],
                          handler := if ok && !m.Result? then k.handler else Closing))
  }

  ghost predicate DoDrained(s: Server, s': Server, c: nat) {
    && Known(s, c) && s.clients[c].handler.Draining? && s.clients[c].queue == []
    && s' == Put(s, c, s.clients[c].(handler := Closing))
  }

  ghost predicate DoSeeDone(s: Server, s': Server, c: nat) {
    && Known(s, c) && s.clients[c].handler.Streaming? && s.clients[c].done
    && s' == Put(s, c, s.clients[c].(handler := Closing))
  }

  ghost predicate DoSeeEnd(s: Server, s': Server, c: nat) {
    && Known(s, c) && s.clients[c].handler.Streaming? && s.ended
    && s' == Put(s, c, s.clients[c].(handler := Draining))
  }

  /** The reader of the connection sees its end. */
  ghost predicate DoEof(s: Server, s': Server, c: nat) {
    && Known(s, c)
    && !s.clients[c].handler.Reading? && !s.clients[c].handler.Encoding? && !s.clients[c].handler.Starting?
    && s' == Put(s, c, s.clients[c].(done := true))
  }

  ghost predicate DoClose(s: Server, s': Server, c: nat) {
    && Known(s, c) && s.clients[c].handler.Closing?
    && s' == Put(s, c, s.clients[c].(handler := Leaving, done := true))
  }

  /** The handler gives up the attachment if it is still its own. */
  ghost predicate DoCleanup(s: Server, s': Server, c: nat) {
    && Known(s, c) && s.clients[c].handler.Leaving? && s.lock.None?
    && s' == if s.active == Some(c) then Put(s, c, s.clients[c].(handler := Gone, upTo := Some(|s.log|))).(active := None)
             else Put(s, c, s.clients[c].(handler := Gone))
  }

  /** Steps of the supervisor and of the event loop. */
  ghost predicate WorkerNext(limits: map<string, int>, s: Server, s': Server, step: Step) {
    match step
    case AddLine(n, e) => DoAddLine(s, s', n, e)
    case SendLine(n) => DoSendLine(limits, s, s', n)
    case SendOther(n) => DoSendOther(s, s', n)
    case Serve => DoServe(s, s')
    case Publish => DoPublish(s, s')
    case Finish => DoFinish(s, s')
    case End => DoEnd(s, s')
    case GiveUp => DoGiveUp(s, s')
    case _ => false
  }

  /** Steps of handlers and of their connections. */
  ghost predicate HandlerNext(limits: map<string, int>, s: Server, s': Server, step: Step) {
    match step
    case Attach(names) => DoAttach(limits, s, s', names)
    case ReadLogs(c) => DoReadLogs(limits, s, s', c)
    case Unlock(c) => DoUnlock(s, s', c)
    case Encode(c, ok) => DoEncode(s, s', c, ok)
    case Start(c) => DoStart(s, s', c)
    case Deliver(c, ok) => DoDeliver(s, s', c, ok)
    case Drained(c) => DoDrained(s, s', c)
    case SeeDone(c) => DoSeeDone(s, s', c)
    case SeeEnd(c) => DoSeeEnd(s, s', c)
    case Eof(c) => DoEof(s, s', c)
    case Close(c) => DoClose(s, s', c)
    case Cleanup(c) => DoCleanup(s, s', c)
    case _ => false
  }

  ghost predicate Next(limits: map<string, int>, s: Server, s': Server, step: Step) {
    WorkerNext(limits, s, s', step) || HandlerNext(limits, s, s', step)
  }

  ghost predicate Trace(limits: map<string, int>, trace: seq<Server>, steps: seq<Step>) {
    && |trace| == |steps| + 1
    && Init(limits, trace[0])
    && forall i :: 0 <= i < |steps| ==> Next(limits, trace[i], trace[i + 1], steps[i])
  }

  // ---------- What every step keeps ----------

  /** The first count events sent, all of them when fewer. */
  function FirstOf(events: seq<Event>, count: nat): seq<Event> {
    if count <= |events| then events[..count] else events
  }

  /** The history of one process is its window at some moment after every line whose event
      was published before the attachment had been added. */
  predicate HistoryOk(limit: int, added: seq<Entry>, sent: seq<Event>, from: nat, n: string, batch: Batch<Entry>) {
    if limit <= 0 then batch == Batch([], 0, 0, false)
    else
      && batch.cursor <= |added| && batch == Since(limit, added[..batch.cursor], 0)
      && LinesOf(FirstOf(sent, from), n) <= batch.cursor
  }

  predicate Before(h: Handler) {
    h.Reading? || h.Encoding? || h.Starting?
  }

  /** Where the client's share of the published messages ends. */
  function ShareEnd(s: Server, k: Client): nat {
    if k.upTo.Some? then k.upTo.value else |s.log|
  }

  /** The messages queued to a client are those published while it was attached. */
  predicate ShareOk(s: Server, k: Client) {
    && k.from <= ShareEnd(s, k) <= |s.log| && k.from <= |s.sent|
    && k.delivered + k.lost + k.queue == s.log[k.from..ShareEnd(s, k)]
    && (k.lost != [] ==> k.handler.Closing? || k.handler.Leaving? || k.handler.Gone?)
    && (Before(k.handler) ==> k.delivered == [])
    && (k.handler.Reading? ==> k.from == |s.log|)
    && (k.handler.Gone? ==> k.upTo.Some?)
  }

  ghost predicate HistoriesOk(limits: map<string, int>, s: Server, k: Client) {
    && (forall n :: n in k.history ==> n in limits && n in s.added && HistoryOk(limits[n], s.added[n], s.sent, k.from, n, k.history[n]))
    && (forall n :: n in limits ==> n in k.history || (k.handler.Reading? && n in k.handler.left))
  }

  ghost predicate ClientOk(limits: map<string, int>, s: Server, c: nat)
    requires Known(s, c)
  {
    var k := s.clients[c];
    && ShareOk(s, k) && HistoriesOk(limits, s, k)
    && (s.active == Some(c) <==> k.upTo.None?)
    && (s.lock == Some(c) <==> k.handler.Reading?)
    && (k.handler.Reading? ==> s.active == Some(c))
  }

  /** The event stream numbers the lines of each process in the order they were added. */
  ghost predicate SentOk(limits: map<string, int>, s: Server) {
    forall i :: 0 <= i < |s.sent| && s.sent[i].Line? ==> LineOk(limits, s.added, s.sent, i)
  }

  predicate LineOk(limits: map<string, int>, added: map<string, seq<Entry>>, sent: seq<Event>, i: nat)
    requires i < |sent| && sent[i].Line?
  {
    var n, k := sent[i].process, LinesOf(sent[..i], sent[i].process);
    n in limits && n in added && k < |added[n]| && sent[i] == Line(n, if limits[n] > 0 then k + 1 else 0, added[n][k])
  }

  /** Published is a prefix of the event stream, and the result comes last. */
  ghost predicate LogOk(s: Server) {
    && (if s.closing then |s.log| == |s.sent| + 1 && s.log[|s.sent|].Result? else |s.log| <= |s.sent|)
    && (forall i :: 0 <= i < |s.log| && i < |s.sent| ==> s.log[i] == Live(s.sent[i]))
    && (s.closing ==> !s.phase.Waiting? && !s.phase.Serving?)
  }

  ghost predicate GlobalOk(limits: map<string, int>, s: Server) {
    && s.added.Keys == limits.Keys
    && (forall n :: n in limits && n in s.added ==> LinesOf(s.sent, n) <= |s.added[n]|)
    && s.starts == (if s.started then 1 else 0)
    && (s.active.Some? ==> Known(s, s.active.value))
    && (s.lock.Some? ==> s.lock == s.active)
  }

  ghost predicate Inv(limits: map<string, int>, s: Server) {
    GlobalOk(limits, s) && SentOk(limits, s) && LogOk(s) && forall c: nat :: Known(s, c) ==> ClientOk(limits, s, c)
  }
}
