/** What every step of the attach and publish protocol keeps, and what follows: exclusive
    attachment, a single start, and the share of the messages each client gets. */
module AttachInvariant {
  import opened Options
  import opened LogRing
  import opened AttachProtocol

  /** Everything only grows. */
  predicate Grows(s: Server, s': Server) {
    && s'.added.Keys == s.added.Keys && (forall n :: n in s.added ==> s.added[n] <= s'.added[n])
    && s.sent <= s'.sent && s.log <= s'.log
  }

  lemma HistoryStays(limits: map<string, int>, s: Server, s': Server, k: Client)
    requires HistoriesOk(limits, s, k) && Grows(s, s') && k.from <= |s.sent|
    ensures HistoriesOk(limits, s', k)
  {
    forall n | n in k.history ensures n in limits && n in s'.added && HistoryOk(limits[n], s'.added[n], s'.sent, k.from, n, k.history[n]) {
      assert HistoryOk(limits[n], s.added[n], s.sent, k.from, n, k.history[n]);
      assert s'.sent[..k.from] == s.sent[..k.from];
      if limits[n] > 0 {
        assert s'.added[n][..k.history[n].cursor] == s.added[n][..k.history[n].cursor];
      }
    }
  }

  lemma ShareStays(s: Server, s': Server, k: Client)
    requires ShareOk(s, k) && s.log <= s'.log && s.sent <= s'.sent
    requires k.upTo.None? || k.handler.Reading? ==> s'.log == s.log
    ensures ShareOk(s', k)
  {
    var e := ShareEnd(s, k);
    assert s'.log[k.from..e] == s.log[k.from..e];
  }

  /** A client a step does not touch. */
  lemma ClientStays(limits: map<string, int>, s: Server, s': Server, c: nat)
    requires Known(s, c) && ClientOk(limits, s, c) && Grows(s, s')
    requires Known(s', c) && s'.clients[c] == s.clients[c]
    requires (s'.active == Some(c) <==> s.active == Some(c)) && (s'.lock == Some(c) <==> s.lock == Some(c))
    requires s.active == Some(c) ==> s'.log == s.log
    ensures ClientOk(limits, s', c)
  {
    ShareStays(s, s', s.clients[c]);
    HistoryStays(limits, s, s', s.clients[c]);
  }

  // ---------- The supervisor's stream ----------

  lemma {:induction false} LinesSnoc(events: seq<Event>, e: Event, n: string)
    ensures LinesOf(events + [e], n) == LinesOf(events, n) + if e.Line? && e.process == n then 1 else 0
  {
    assert (events + [e])[..|events|] == events;
  }

  lemma SentGrows(limits: map<string, int>, s: Server, s': Server, e: Event)
    requires SentOk(limits, s) && s'.sent == s.sent + [e] && s'.added == s.added
    requires e.Line? ==> LineOk(limits, s'.added, s'.sent, |s.sent|)
    ensures SentOk(limits, s')
  {
    forall i | 0 <= i < |s'.sent| && s'.sent[i].Line? ensures LineOk(limits, s'.added, s'.sent, i) {
      if i < |s.sent| {
        assert LineOk(limits, s.added, s.sent, i);
        assert s'.sent[..i] == s.sent[..i];
      }
    }
  }

  lemma SentStays(limits: map<string, int>, s: Server, s': Server)
    requires SentOk(limits, s) && s'.sent == s.sent && Grows(s, s')
    ensures SentOk(limits, s')
  {
    forall i | 0 <= i < |s'.sent| && s'.sent[i].Line? ensures LineOk(limits, s'.added, s'.sent, i) {
      assert LineOk(limits, s.added, s.sent, i);
    }
  }

  ghost predicate ClientsOk(limits: map<string, int>, s: Server) {
    forall c: nat :: Known(s, c) ==> ClientOk(limits, s, c)
  }

  lemma AddKeeps(limits: map<string, int>, s: Server, s': Server, n: string, e: Entry)
    requires Inv(limits, s) && DoAddLine(s, s', n, e)
    ensures Inv(limits, s')
  {
    hide ClientOk;
    SentStays(limits, s, s');
    forall c: nat | Known(s', c) ensures ClientOk(limits, s', c) {
      ClientStays(limits, s, s', c);
    }
  }

  /** The next line of its process whose event has not been sent. */
  predicate NextLine(limits: map<string, int>, s: Server, e: Event)
    requires e.Line?
  {
    var n, k := e.process, LinesOf(s.sent, e.process);
    n in limits && n in s.added && k < |s.added[n]| && e == Line(n, if limits[n] > 0 then k + 1 else 0, s.added[n][k])
  }

  lemma SendKeeps(limits: map<string, int>, s: Server, s': Server, e: Event)
    requires Inv(limits, s) && s'.sent == s.sent + [e] && s' == s.(sent := s'.sent) && !s.closing
    requires e.Line? ==> NextLine(limits, s, e)
    ensures Inv(limits, s')
  {
    hide ClientOk;
    assert s'.sent[..|s.sent|] == s.sent;
    SentGrows(limits, s, s', e);
    forall n | n in limits && n in s'.added ensures LinesOf(s'.sent, n) <= |s'.added[n]| {
      LinesSnoc(s.sent, e, n);
    }
    forall c: nat | Known(s', c) ensures ClientOk(limits, s', c) {
      ClientStays(limits, s, s', c);
    }
  }

  /** Steps that touch neither a client nor what clients see. */
  lemma PhaseKeeps(limits: map<string, int>, s: Server, s': Server)
    requires Inv(limits, s) && s' == s.(phase := s'.phase, ended := s'.ended)
    requires s.closing ==> !s'.phase.Waiting? && !s'.phase.Serving?
    ensures Inv(limits, s')
  {
    hide ClientOk;
    SentStays(limits, s, s');
    forall c: nat | Known(s', c) ensures ClientOk(limits, s', c) {
      ClientStays(limits, s, s', c);
    }
  }

  // ---------- Publishing ----------

  /** A message reaches the queue of the attached client and no other, or detaches it. */
  lemma EnqueueShare(s: Server, s': Server, m: Message, c: nat)
    requires s.active == Some(c) && Known(s, c) && ShareOk(s, s.clients[c]) && s.clients[c].upTo.None?
    requires !s.clients[c].handler.Reading?
    requires Enqueue(s, s', m)
    ensures Known(s', c) && ShareOk(s', s'.clients[c]) && s'.clients[c].handler == s.clients[c].handler
    ensures s'.clients[c].history == s.clients[c].history && s'.clients[c].from == s.clients[c].from
    ensures s'.active == Some(c) <==> s'.clients[c].upTo.None?
  {
    var k, k' := s.clients[c], s'.clients[c];
    assert s.log[k.from..] == s.log[k.from..|s.log|];
    if k'.upTo.Some? {
      assert s'.log[k.from..|s.log|] == s.log[k.from..|s.log|];
    } else {
      assert s'.log[k.from..|s'.log|] == s.log[k.from..|s.log|] + [m];
    }
  }

  lemma EnqueueFrame(s: Server, s': Server, m: Message)
    requires Enqueue(s, s', m)
    ensures s' == s.(log := s.log + [m], clients := s'.clients, active := s'.active) && |s'.clients| == |s.clients|
    ensures forall c: nat :: Known(s, c) && s.active != Some(c) ==> s'.clients[c] == s.clients[c] && s'.active != Some(c)
    ensures s'.active == s.active || s'.active == None
  {
  }

  lemma EnqueueClients(limits: map<string, int>, s: Server, s': Server, m: Message)
    requires ClientsOk(limits, s) && s.lock.None? && Enqueue(s, s', m)
    ensures ClientsOk(limits, s')
  {
    hide ClientOk, Enqueue;
    EnqueueFrame(s, s', m);
    forall c: nat | Known(s', c) ensures ClientOk(limits, s', c) {
      if s.active == Some(c) {
        EnqueueActive(limits, s, s', m, c);
      } else {
        ClientStays(limits, s, s', c);
      }
    }
  }

  lemma EnqueueActive(limits: map<string, int>, s: Server, s': Server, m: Message, c: nat)
    requires s.active == Some(c) && Known(s, c) && ClientOk(limits, s, c) && s.lock.None? && Enqueue(s, s', m)
    ensures Known(s', c) && ClientOk(limits, s', c)
  {
    hide Enqueue, HistoriesOk, ShareOk;
    EnqueueShare(s, s', m, c);
    EnqueueFrame(s, s', m);
    EnqueueHistory(limits, s, s', s.clients[c], s'.clients[c]);
  }

  lemma EnqueueHistory(limits: map<string, int>, s: Server, s': Server, k: Client, k': Client)
    requires HistoriesOk(limits, s, k) && s'.added == s.added && s'.sent == s.sent
    requires k'.history == k.history && k'.from == k.from && k'.handler == k.handler
    ensures HistoriesOk(limits, s', k')
  {
  }

  lemma InvFrom(limits: map<string, int>, s: Server)
    requires GlobalOk(limits, s) && SentOk(limits, s) && LogOk(s) && ClientsOk(limits, s)
    ensures Inv(limits, s)
  {
    hide ClientOk;
  }

  lemma EnqueueGlobal(limits: map<string, int>, s: Server, s': Server, m: Message)
    requires GlobalOk(limits, s) && SentOk(limits, s) && s.lock.None? && Enqueue(s, s', m)
    ensures GlobalOk(limits, s') && SentOk(limits, s')
  {
    hide Enqueue;
    EnqueueFrame(s, s', m);
    SentStays(limits, s, s');
  }

  lemma PublishKeeps(limits: map<string, int>, s: Server, s': Server)
    requires Inv(limits, s) && DoPublish(s, s')
    ensures Inv(limits, s')
  {
    hide ClientOk, SentOk, GlobalOk, Enqueue;
    var m := Live(s.sent[|s.log|]);
    EnqueueFrame(s, s', m);
    EnqueueGlobal(limits, s, s', m);
    EnqueueClients(limits, s, s', m);
    InvFrom(limits, s');
  }

  lemma FinishKeeps(limits: map<string, int>, s: Server, s': Server)
    requires Inv(limits, s) && DoFinish(s, s')
    ensures Inv(limits, s')
  {
    hide ClientOk, Enqueue;
    var t := s.(closing := true, phase := Finishing);
    EnqueueFrame(t, s', Result);
    EnqueueGlobal(limits, t, s', Result);
    forall c: nat | Known(t, c) ensures ClientOk(limits, t, c) {
      ClientStays(limits, s, t, c);
    }
    EnqueueClients(limits, t, s', Result);
    InvFrom(limits, s');
  }

  // ---------- Handlers ----------

  /** A handler's step changes its own client only. */
  lemma OwnStep(limits: map<string, int>, s: Server, s': Server, c: nat)
    requires Inv(limits, s) && Known(s, c) && |s'.clients| == |s.clients|
    requires s' == s.(clients := s'.clients, active := s'.active, lock := s'.lock, started := s'.started, starts := s'.starts)
    requires forall d: nat :: Known(s, d) && d != c ==>
      && s'.clients[d] == s.clients[d]
      && (s'.active == Some(d) <==> s.active == Some(d)) && (s'.lock == Some(d) <==> s.lock == Some(d))
    requires ClientOk(limits, s', c) && GlobalOk(limits, s')
    ensures Inv(limits, s')
  {
    hide ClientOk, GlobalOk;
    SentStays(limits, s, s');
    SameLog(s, s');
    forall d: nat | Known(s', d) ensures ClientOk(limits, s', d) {
      if d != c { ClientStays(limits, s, s', d); }
    }
    InvFrom(limits, s');
  }

  lemma SameLog(s: Server, s': Server)
    requires LogOk(s) && s'.log == s.log && s'.sent == s.sent && s'.closing == s.closing && s'.phase == s.phase
    ensures LogOk(s')
  {
  }

  lemma AttachKeeps(limits: map<string, int>, s: Server, s': Server, names: seq<string>)
    requires Inv(limits, s) && DoAttach(limits, s, s', names)
    ensures Inv(limits, s')
  {
    hide ClientOk;
    var c := |s.clients|;
    SentStays(limits, s, s');
    forall d: nat | Known(s', d) ensures ClientOk(limits, s', d) {
      if d != c { ClientStays(limits, s, s', d); } else { FreshClient(limits, s, s', names); }
    }
  }

  lemma FreshClient(limits: map<string, int>, s: Server, s': Server, names: seq<string>)
    requires LogOk(s) && DoAttach(limits, s, s', names)
    ensures ClientOk(limits, s', |s.clients|)
  {
  }

  lemma {:induction false} LinesPrefix(events: seq<Event>, i: nat, n: string)
    requires i <= |events|
    ensures LinesOf(events[..i], n) <= LinesOf(events, n)
    decreases |events|
  {
    if i < |events| {
      LinesPrefix(events[..|events| - 1], i, n);
      assert events[..|events| - 1][..i] == events[..i];
    } else {
      assert events[..i] == events;
    }
  }

  /** A read under the lock is a window that contains every line published before. */
  lemma ReadHistory(limit: int, added: seq<Entry>, sent: seq<Event>, from: nat, n: string)
    requires from <= |sent| && LinesOf(sent, n) <= |added|
    ensures HistoryOk(limit, added, sent, from, n, Since(limit, added, 0))
  {
    LinesPrefix(sent, from, n);
    assert added[..|added|] == added;
  }

  lemma ReadClient(limits: map<string, int>, s: Server, s': Server, c: nat)
    requires GlobalOk(limits, s) && DoReadLogs(limits, s, s', c) && ClientOk(limits, s, c)
    ensures Known(s', c) && ClientOk(limits, s', c)
  {
    hide HistoryOk;
    var k, n := s.clients[c], s.clients[c].handler.left[0];
    ReadHistory(limits[n], s.added[n], s.sent, k.from, n);
  }

  lemma ReadLogsKeeps(limits: map<string, int>, s: Server, s': Server, c: nat)
    requires Inv(limits, s) && DoReadLogs(limits, s, s', c)
    ensures Inv(limits, s')
  {
    hide LogOk, SentOk, ClientOk;
    assert ClientOk(limits, s, c);
    ReadClient(limits, s, s', c);
    KeptPlace(limits, s, s', c);
    OwnStep(limits, s, s', c);
  }

  lemma KeptPlace(limits: map<string, int>, s: Server, s': Server, c: nat)
    requires GlobalOk(limits, s) && DoReadLogs(limits, s, s', c)
    ensures GlobalOk(limits, s') && |s'.clients| == |s.clients|
  {
  }

  lemma UnlockKeeps(limits: map<string, int>, s: Server, s': Server, c: nat)
    requires Inv(limits, s) && DoUnlock(s, s', c)
    ensures Inv(limits, s')
  {
    hide LogOk, SentOk, HistoryOk;
    assert ClientOk(limits, s, c);
    OwnStep(limits, s, s', c);
  }

  /** A step to another stage of the handler, with the stream and the attachment as they were. */
  lemma StageKeeps(limits: map<string, int>, s: Server, s': Server, c: nat)
    requires Inv(limits, s) && Known(s, c) && |s'.clients| == |s.clients| && !s.clients[c].handler.Reading?
    requires s' == s.(clients := s'.clients, started := s'.started, starts := s'.starts)
    requires s'.starts == (if s'.started then 1 else 0)
    requires forall d: nat :: Known(s, d) && d != c ==> s'.clients[d] == s.clients[d]
    requires var k, k' := s.clients[c], s'.clients[c];
             && k' == k.(handler := k'.handler, done := k'.done)
             && !k'.handler.Reading? && !k'.handler.Gone? && (Before(k'.handler) ==> Before(k.handler))
             && (k.handler.Closing? || k.handler.Leaving? || k.handler.Gone? ==> k'.handler.Closing? || k'.handler.Leaving?)
    ensures Inv(limits, s')
  {
    hide LogOk, SentOk, HistoryOk;
    assert ClientOk(limits, s, c);
    OwnStep(limits, s, s', c);
  }

  lemma DeliveredShare(s: Server, s': Server, c: nat, ok: bool)
    requires DoDeliver(s, s', c, ok) && ShareOk(s, s.clients[c])
    ensures Known(s', c) && ShareOk(s', s'.clients[c])
  {
    var k, k' := s.clients[c], s'.clients[c];
    assert k.queue == [k.queue[0]] + k.queue[1..];
    assert k.lost == [];
    assert k'.delivered + k'.lost + k'.queue == k.delivered + k.queue;
  }

  lemma DeliveredClient(limits: map<string, int>, s: Server, s': Server, c: nat, ok: bool)
    requires DoDeliver(s, s', c, ok) && ClientOk(limits, s, c)
    ensures Known(s', c) && ClientOk(limits, s', c)
  {
    hide HistoriesOk, ShareOk;
    DeliveredShare(s, s', c, ok);
    EnqueueHistory(limits, s, s', s.clients[c], s.clients[c]);
    LeftHistory(limits, s', s.clients[c], s'.clients[c]);
  }

  lemma DeliverKeeps(limits: map<string, int>, s: Server, s': Server, c: nat, ok: bool)
    requires Inv(limits, s) && DoDeliver(s, s', c, ok)
    ensures Inv(limits, s')
  {
    hide LogOk, SentOk, ClientOk;
    assert ClientOk(limits, s, c);
    DeliveredClient(limits, s, s', c, ok);
    OwnStep(limits, s, s', c);
  }

  lemma EofKeeps(limits: map<string, int>, s: Server, s': Server, c: nat)
    requires Inv(limits, s) && DoEof(s, s', c)
    ensures Inv(limits, s')
  {
    hide LogOk, SentOk, HistoryOk;
    assert ClientOk(limits, s, c);
    OwnStep(limits, s, s', c);
  }

  lemma DetachedClient(limits: map<string, int>, s: Server, s': Server, c: nat)
    requires Known(s, c) && ClientOk(limits, s, c) && DoCleanup(s, s', c)
    ensures Known(s', c) && ClientOk(limits, s', c)
  {
    hide HistoriesOk;
    var k, k' := s.clients[c], s'.clients[c];
    assert ShareEnd(s', k') == ShareEnd(s, k);
    EnqueueHistory(limits, s, s', k, k.(upTo := k'.upTo));
    LeftHistory(limits, s', k.(upTo := k'.upTo), k');
  }

  lemma LeftHistory(limits: map<string, int>, s: Server, k: Client, k': Client)
    requires HistoriesOk(limits, s, k) && !k.handler.Reading? && k'.history == k.history && k'.from == k.from
    ensures HistoriesOk(limits, s, k')
  {
  }

  /** Cleanup gives up the attachment of its own client only. */
  lemma CleanupKeeps(limits: map<string, int>, s: Server, s': Server, c: nat)
    requires Inv(limits, s) && DoCleanup(s, s', c)
    ensures Inv(limits, s')
  {
    hide LogOk, SentOk, ClientOk;
    assert ClientOk(limits, s, c);
    DetachedClient(limits, s, s', c);
    OwnStep(limits, s, s', c);
  }

  lemma WorkerKeeps(limits: map<string, int>, s: Server, s': Server, step: Step)
    requires Inv(limits, s) && WorkerNext(limits, s, s', step)
    ensures Inv(limits, s')
  {
    hide Inv, ClientOk, DoAddLine, DoPublish, DoFinish;
    WaitingOpen(limits, s);
    match step
    case AddLine(n, e) => AddKeeps(limits, s, s', n, e);
    case SendLine(n) =>
      var k := LinesOf(s.sent, n);
      SendKeeps(limits, s, s', Line(n, if limits[n] > 0 then k + 1 else 0, s.added[n][k]));
    case SendOther(n) => SendKeeps(limits, s, s', Other(n));
    case Publish => PublishKeeps(limits, s, s');
    case Finish => FinishKeeps(limits, s, s');
    case _ => PhaseKeeps(limits, s, s');
  }

  lemma WaitingOpen(limits: map<string, int>, s: Server)
    requires Inv(limits, s)
    ensures s.closing ==> !s.phase.Waiting? && !s.phase.Serving?
  {
  }

  lemma HandlerKeeps(limits: map<string, int>, s: Server, s': Server, step: Step)
    requires Inv(limits, s) && HandlerNext(limits, s, s', step)
    ensures Inv(limits, s')
  {
    hide Inv, ClientOk, DoAttach, DoReadLogs, DoUnlock, DoDeliver, DoEof, DoCleanup;
    StartsOnce(limits, s);
    match step
    case Attach(names) => AttachKeeps(limits, s, s', names);
    case ReadLogs(c) => ReadLogsKeeps(limits, s, s', c);
    case Unlock(c) => UnlockKeeps(limits, s, s', c);
    case Deliver(c, ok) => DeliverKeeps(limits, s, s', c, ok);
    case Eof(c) => EofKeeps(limits, s, s', c);
    case Cleanup(c) => CleanupKeeps(limits, s, s', c);
    case Encode(c, ok) => StageKeeps(limits, s, s', c);
    case Start(c) => StageKeeps(limits, s, s', c);
    case Drained(c) => StageKeeps(limits, s, s', c);
    case SeeDone(c) => StageKeeps(limits, s, s', c);
    case SeeEnd(c) => StageKeeps(limits, s, s', c);
    case Close(c) => StageKeeps(limits, s, s', c);
    case _ =>
  }

  lemma StartsOnce(limits: map<string, int>, s: Server)
    requires Inv(limits, s)
    ensures s.starts == (if s.started then 1 else 0)
  {
  }

  lemma NextKeeps(limits: map<string, int>, s: Server, s': Server, step: Step)
    requires Inv(limits, s) && Next(limits, s, s', step)
    ensures Inv(limits, s')
  {
    hide Inv, WorkerNext, HandlerNext;
    if WorkerNext(limits, s, s', step) { WorkerKeeps(limits, s, s', step); } else { HandlerKeeps(limits, s, s', step); }
  }

  lemma InitOk(limits: map<string, int>, s: Server)
    requires Init(limits, s)
    ensures Inv(limits, s)
  {
  }

  lemma {:induction false} RunKeeps(limits: map<string, int>, trace: seq<Server>, steps: seq<Step>, i: nat)
    requires Trace(limits, trace, steps) && i < |trace|
    ensures Inv(limits, trace[i])
  {
    hide Init, Next, Inv;
    if i == 0 {
      InitOk(limits, trace[0]);
    } else {
      RunKeeps(limits, trace, steps, i - 1);
      assert Next(limits, trace[i - 1], trace[i - 1 + 1], steps[i - 1]);
      NextKeeps(limits, trace[i - 1], trace[i], steps[i - 1]);
    }
  }

  // ---------- Exclusive attachment ----------

  /** Attachments follow one another: each ended before the next one began. */
  ghost predicate OneAfterAnother(s: Server) {
    forall c: nat, d: nat :: c < d < |s.clients| ==> EndedBefore(s, c, d)
  }

  predicate EndedBefore(s: Server, c: nat, d: nat)
    requires c < |s.clients| && d < |s.clients|
  {
    s.clients[c].upTo.Some? && s.clients[c].upTo.value <= s.clients[d].from
  }

  /** What a step leaves of the clients there are. */
  predicate SameShares(s: Server, s': Server) {
    && |s.clients| <= |s'.clients|
    && forall c: nat :: c < |s.clients| ==>
         && s'.clients[c].from == s.clients[c].from
         && (s.clients[c].upTo.Some? ==> s'.clients[c].upTo == s.clients[c].upTo)
  }

  lemma WorkerShares(limits: map<string, int>, s: Server, s': Server, step: Step)
    requires Inv(limits, s) && WorkerNext(limits, s, s', step)
    ensures SameShares(s, s') && |s'.clients| == |s.clients|
  {
    hide LogOk, SentOk, HistoriesOk, ShareOk;
    if s.active.Some? { assert ClientOk(limits, s, s.active.value); }
  }

  lemma CleanupShares(limits: map<string, int>, s: Server, s': Server, c: nat)
    requires DoCleanup(s, s', c) && ClientOk(limits, s, c)
    ensures SameShares(s, s') && |s'.clients| == |s.clients|
  {
    hide HistoriesOk, ShareOk;
  }

  lemma StageShares(limits: map<string, int>, s: Server, s': Server, step: Step)
    requires HandlerNext(limits, s, s', step) && !step.Cleanup?
    ensures SameShares(s, s') && (|s'.clients| == |s.clients| || step.Attach?)
  {
  }

  lemma HandlerShares(limits: map<string, int>, s: Server, s': Server, step: Step)
    requires Inv(limits, s) && HandlerNext(limits, s, s', step)
    ensures SameShares(s, s') && (|s'.clients| == |s.clients| || step.Attach?)
  {
    hide ClientOk, SameShares, GlobalOk, SentOk, LogOk;
    if step.Cleanup? {
      assert ClientOk(limits, s, step.client);
      CleanupShares(limits, s, s', step.client);
    } else {
      StageShares(limits, s, s', step);
    }
  }

  lemma NextShares(limits: map<string, int>, s: Server, s': Server, step: Step)
    requires Inv(limits, s) && Next(limits, s, s', step)
    ensures SameShares(s, s') && (|s'.clients| == |s.clients| || step.Attach?)
  {
    hide Inv, WorkerNext, HandlerNext;
    if WorkerNext(limits, s, s', step) { WorkerShares(limits, s, s', step); } else { HandlerShares(limits, s, s', step); }
  }

  lemma AttachedLast(limits: map<string, int>, s: Server, s': Server, step: Step)
    requires Inv(limits, s) && Next(limits, s, s', step) && step.Attach?
    ensures !s.closing && |s'.clients| == |s.clients| + 1 && s'.clients[|s.clients|].from == |s.log|
    ensures forall c: nat :: Known(s, c) ==> s.clients[c].upTo.Some? && s.clients[c].upTo.value <= |s.log|
  {
    hide LogOk, SentOk, HistoriesOk, HistoryOk;
    forall c: nat | Known(s, c) ensures s.clients[c].upTo.Some? && s.clients[c].upTo.value <= |s.log| {
      assert ClientOk(limits, s, c);
    }
  }

  lemma ExclusiveKeeps(limits: map<string, int>, s: Server, s': Server, step: Step)
    requires Inv(limits, s) && OneAfterAnother(s) && Next(limits, s, s', step)
    ensures OneAfterAnother(s')
  {
    hide Inv, Next;
    NextShares(limits, s, s', step);
    if step.Attach? { AttachedLast(limits, s, s', step); }
    forall c: nat, d: nat | c < d < |s'.clients| ensures EndedBefore(s', c, d) {
      assert Known(s, c);
      if d < |s.clients| { assert EndedBefore(s, c, d); }
    }
  }

  lemma {:induction false} RunIsExclusive(limits: map<string, int>, trace: seq<Server>, steps: seq<Step>, i: nat)
    requires Trace(limits, trace, steps) && i < |trace|
    ensures OneAfterAnother(trace[i])
  {
    hide Next, Inv;
    if i > 0 {
      RunKeeps(limits, trace, steps, i - 1);
      RunIsExclusive(limits, trace, steps, i - 1);
      assert Next(limits, trace[i - 1], trace[i - 1 + 1], steps[i - 1]);
      ExclusiveKeeps(limits, trace[i - 1], trace[i], steps[i - 1]);
    }
  }

  /** What a client is given is exactly what was published while it was attached, in
      order; no message is given to two clients; and the result can only come last. */
  lemma ShareOfClient(limits: map<string, int>, trace: seq<Server>, steps: seq<Step>, i: nat, c: nat)
    requires Trace(limits, trace, steps) && i < |trace| && Known(trace[i], c)
    ensures var s, k := trace[i], trace[i].clients[c];
            && k.from <= ShareEnd(s, k) <= |s.log|
            && k.delivered + k.lost + k.queue == s.log[k.from..ShareEnd(s, k)]
            && (forall d: nat :: c < d < |s.clients| ==> ShareEnd(s, k) <= s.clients[d].from)
            && (forall j :: 0 <= j < |s.log| ==> s.log[j] == if j < |s.sent| then Live(s.sent[j]) else Result)
            && (forall j :: 0 <= j < |k.delivered| && k.delivered[j].Result? ==> s.closing && j == |k.delivered| - 1)
  {
    hide Next, Init, SentOk, GlobalOk, HistoriesOk, Trace;
    RunKeeps(limits, trace, steps, i);
    RunIsExclusive(limits, trace, steps, i);
    var s, k := trace[i], trace[i].clients[c];
    assert ClientOk(limits, s, c);
    LogShape(s);
    forall d: nat | c < d < |s.clients| ensures ShareEnd(s, k) <= s.clients[d].from {
      assert EndedBefore(s, c, d);
    }
    forall j | 0 <= j < |k.delivered| && k.delivered[j].Result? ensures s.closing && j == |k.delivered| - 1 {
      assert k.delivered[j] == s.log[k.from..ShareEnd(s, k)][j];
    }
  }

  lemma LogShape(s: Server)
    requires LogOk(s)
    ensures forall j :: 0 <= j < |s.log| ==> s.log[j] == if j < |s.sent| then Live(s.sent[j]) else Result
    ensures |s.log| <= |s.sent| + 1 && (|s.log| == |s.sent| + 1 ==> s.closing)
  {
  }

  /** A stale handler's cleanup never evicts a newer client, and a client is detached only by
      its own cleanup or when its done channel is closed. */
  lemma DetachedBy(limits: map<string, int>, s: Server, s': Server, step: Step, c: nat)
    requires Inv(limits, s) && Next(limits, s, s', step) && s.active == Some(c)
    ensures s'.active == Some(c) || step == Cleanup(c) || (Known(s, c) && s.clients[c].done && s'.active.None?)
  {
    hide Inv, WorkerNext, HandlerNext;
    if WorkerNext(limits, s, s', step) { WorkerDetaches(limits, s, s', step, c); } else { HandlerDetaches(limits, s, s', step, c); }
  }

  lemma WorkerDetaches(limits: map<string, int>, s: Server, s': Server, step: Step, c: nat)
    requires WorkerNext(limits, s, s', step) && s.active == Some(c)
    ensures s'.active == Some(c) || (Known(s, c) && s.clients[c].done && s'.active.None?)
  {
  }

  lemma HandlerDetaches(limits: map<string, int>, s: Server, s': Server, step: Step, c: nat)
    requires HandlerNext(limits, s, s', step) && s.active == Some(c)
    ensures s'.active == Some(c) || step == Cleanup(c)
  {
  }

  /** The start channel is closed at most once, and nobody attaches once the session is
      closing. */
  lemma StartedOnce(limits: map<string, int>, trace: seq<Server>, steps: seq<Step>, i: nat)
    requires Trace(limits, trace, steps) && i < |trace|
    ensures trace[i].starts <= 1
    ensures i < |steps| && trace[i].closing ==> trace[i + 1].closing && |trace[i + 1].clients| == |trace[i].clients|
  {
    hide Next, Init, SentOk, LogOk, ClientOk;
    RunKeeps(limits, trace, steps, i);
    if i < |steps| {
      assert Next(limits, trace[i], trace[i + 1], steps[i]);
      ClosingStays(limits, trace[i], trace[i + 1], steps[i]);
    }
  }

  lemma WorkerClosing(limits: map<string, int>, s: Server, s': Server, step: Step)
    requires WorkerNext(limits, s, s', step)
    ensures s.closing ==> s'.closing && |s'.clients| == |s.clients|
  {
  }

  lemma HandlerClosing(limits: map<string, int>, s: Server, s': Server, step: Step)
    requires HandlerNext(limits, s, s', step)
    ensures s.closing ==> s'.closing && |s'.clients| == |s.clients|
  {
  }

  lemma ClosingStays(limits: map<string, int>, s: Server, s': Server, step: Step)
    requires Next(limits, s, s', step)
    ensures s.closing ==> s'.closing && |s'.clients| == |s.clients|
  {
    hide WorkerNext, HandlerNext;
    if WorkerNext(limits, s, s', step) { WorkerClosing(limits, s, s', step); } else { HandlerClosing(limits, s, s', step); }
  }
}
