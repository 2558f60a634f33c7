/** The choices of the attach protocol and that it has no dead ends: a handler ends only for a
    reason, goes on whenever it can, and the event loop publishes unless a client that is
    still there has a full queue. */
module AttachProgress {
  import opened Options
  import opened LogRing
  import opened AttachProtocol
  import opened AttachInvariant

  // ---------- Reasons ----------

  /** Why a handler stops serving its client. */
  predicate EndsFor(s: Server, step: Step, c: nat)
    requires Known(s, c)
  {
    var k := s.clients[c];
    || step == Encode(c, false)
    || step == Deliver(c, false)
    || (step == Deliver(c, true) && k.queue != [] && k.queue[0].Result?)
    || (step == SeeDone(c) && k.done)
    || (step == Drained(c) && k.handler.Draining? && k.queue == [] && k.lost == [])
  }

  predicate AtWork(h: Handler) {
    h.Reading? || h.Encoding? || h.Starting? || h.Streaming? || h.Draining?
  }

  lemma WorkerLeavesHandlers(limits: map<string, int>, s: Server, s': Server, step: Step, c: nat)
    requires WorkerNext(limits, s, s', step) && Known(s, c)
    ensures Known(s', c) && s'.clients[c].handler == s.clients[c].handler && s'.clients[c].done == s.clients[c].done
    ensures s'.clients[c].delivered == s.clients[c].delivered && s'.clients[c].lost == s.clients[c].lost
  {
  }

  predicate Streams(step: Step) {
    step.Deliver? || step.Drained? || step.SeeDone? || step.SeeEnd? || step.Encode? || step.Start? || step.Unlock?
  }

  lemma StreamEnds(limits: map<string, int>, s: Server, s': Server, step: Step, c: nat)
    requires HandlerNext(limits, s, s', step) && Known(s, c) && (AtWork(s.clients[c].handler) ==> s.clients[c].lost == [])
    requires Streams(step)
    ensures Known(s', c)
    ensures AtWork(s.clients[c].handler) && !AtWork(s'.clients[c].handler) ==> EndsFor(s, step, c)
    ensures !s.clients[c].handler.Draining? && s'.clients[c].handler.Draining? ==> step == SeeEnd(c) && s.ended
    ensures !s.clients[c].done && s'.clients[c].done ==> step == Eof(c) || step == Close(c)
    ensures s'.clients[c].lost == s.clients[c].lost || step == Deliver(c, false)
  {
    hide DoAttach, DoReadLogs, DoEof, DoClose, DoCleanup;
  }

  lemma SnapshotEnds(limits: map<string, int>, s: Server, s': Server, step: Step, c: nat)
    requires HandlerNext(limits, s, s', step) && Known(s, c) && (AtWork(s.clients[c].handler) ==> s.clients[c].lost == [])
    requires step.Attach? || step.ReadLogs?
    ensures Known(s', c)
    ensures AtWork(s.clients[c].handler) && !AtWork(s'.clients[c].handler) ==> EndsFor(s, step, c)
    ensures !s.clients[c].handler.Draining? && s'.clients[c].handler.Draining? ==> step == SeeEnd(c) && s.ended
    ensures !s.clients[c].done && s'.clients[c].done ==> step == Eof(c) || step == Close(c)
    ensures s'.clients[c].lost == s.clients[c].lost || step == Deliver(c, false)
  {
    hide DoDeliver, DoDrained, DoSeeDone, DoSeeEnd, DoEncode, DoStart, DoUnlock, DoEof, DoClose, DoCleanup, EndsFor, Since;
  }

  lemma OtherEnds(limits: map<string, int>, s: Server, s': Server, step: Step, c: nat)
    requires HandlerNext(limits, s, s', step) && Known(s, c) && (AtWork(s.clients[c].handler) ==> s.clients[c].lost == [])
    requires !Streams(step) && !step.Attach? && !step.ReadLogs?
    ensures Known(s', c)
    ensures AtWork(s.clients[c].handler) && !AtWork(s'.clients[c].handler) ==> EndsFor(s, step, c)
    ensures !s.clients[c].handler.Draining? && s'.clients[c].handler.Draining? ==> step == SeeEnd(c) && s.ended
    ensures !s.clients[c].done && s'.clients[c].done ==> step == Eof(c) || step == Close(c)
    ensures s'.clients[c].lost == s.clients[c].lost || step == Deliver(c, false)
  {
    hide DoDeliver, DoDrained, DoSeeDone, DoSeeEnd, DoEncode, DoStart, DoUnlock, DoAttach, DoReadLogs, EndsFor;
  }

  lemma HandlerEnds(limits: map<string, int>, s: Server, s': Server, step: Step, c: nat)
    requires HandlerNext(limits, s, s', step) && Known(s, c) && (AtWork(s.clients[c].handler) ==> s.clients[c].lost == [])
    ensures Known(s', c)
    ensures AtWork(s.clients[c].handler) && !AtWork(s'.clients[c].handler) ==> EndsFor(s, step, c)
    ensures !s.clients[c].handler.Draining? && s'.clients[c].handler.Draining? ==> step == SeeEnd(c) && s.ended
    ensures !s.clients[c].done && s'.clients[c].done ==> step == Eof(c) || step == Close(c)
    ensures s'.clients[c].lost == s.clients[c].lost || step == Deliver(c, false)
  {
    hide HandlerNext, EndsFor;
    if Streams(step) { StreamEnds(limits, s, s', step, c); }
    else if step.Attach? || step.ReadLogs? { SnapshotEnds(limits, s, s', step, c); }
    else { OtherEnds(limits, s, s', step, c); }
  }

  /** A handler stops serving its client only because a write failed, the result has been
      delivered, the client is gone, or the session has ended and the queue is empty; messages
      are delivered unless a write fails; and done is closed by the client's end only. */
  lemma HandlerEndsForReason(limits: map<string, int>, trace: seq<Server>, steps: seq<Step>, i: nat, c: nat)
    requires Trace(limits, trace, steps) && i < |steps| && Known(trace[i], c)
    ensures var s, s', step := trace[i], trace[i + 1], steps[i];
            && Known(s', c)
            && (AtWork(s.clients[c].handler) && !AtWork(s'.clients[c].handler) ==> EndsFor(s, step, c))
            && (!s.clients[c].handler.Draining? && s'.clients[c].handler.Draining? ==> step == SeeEnd(c) && s.ended)
            && (!s.clients[c].done && s'.clients[c].done ==> step == Eof(c) || step == Close(c))
            && (step == Deliver(c, true) ==> s.clients[c].queue != [] && s'.clients[c].delivered == s.clients[c].delivered + [s.clients[c].queue[0]])
            && (s'.clients[c].lost != s.clients[c].lost ==> step == Deliver(c, false))
  {
    hide Init, WorkerNext, HandlerNext, Inv;
    RunKeeps(limits, trace, steps, i);
    assert Next(limits, trace[i], trace[i + 1], steps[i]);
    NothingLost(limits, trace[i], c);
    if WorkerNext(limits, trace[i], trace[i + 1], steps[i]) {
      WorkerLeavesHandlers(limits, trace[i], trace[i + 1], steps[i], c);
      NotDelivering(limits, trace[i], trace[i + 1], steps[i]);
    } else {
      HandlerEnds(limits, trace[i], trace[i + 1], steps[i], c);
      if steps[i] == Deliver(c, true) { Delivers(limits, trace[i], trace[i + 1], c); }
    }
  }

  lemma NotDelivering(limits: map<string, int>, s: Server, s': Server, step: Step)
    requires WorkerNext(limits, s, s', step)
    ensures !step.Deliver?
  {
    hide DoAddLine, DoSendLine, DoSendOther, DoServe, DoPublish, DoFinish, DoEnd, DoGiveUp;
  }

  lemma Delivers(limits: map<string, int>, s: Server, s': Server, c: nat)
    requires HandlerNext(limits, s, s', Deliver(c, true)) && Known(s, c)
    ensures Known(s', c) && s.clients[c].queue != [] && s'.clients[c].delivered == s.clients[c].delivered + [s.clients[c].queue[0]]
  {
  }

  lemma NothingLost(limits: map<string, int>, s: Server, c: nat)
    requires Inv(limits, s) && Known(s, c)
    ensures AtWork(s.clients[c].handler) ==> s.clients[c].lost == []
  {
    hide GlobalOk, SentOk, LogOk, HistoriesOk;
    assert ClientOk(limits, s, c);
  }

  // ---------- Going on ----------

  ghost predicate Enabled(limits: map<string, int>, s: Server, step: Step) {
    exists s' :: Next(limits, s, s', step)
  }

  lemma EnabledBy(limits: map<string, int>, s: Server, s': Server, step: Step)
    requires Next(limits, s, s', step)
    ensures Enabled(limits, s, step)
  {
    hide Next;
  }

  /** The steps of the handler of client c. */
  predicate HandlerStep(step: Step, c: nat) {
    || step == ReadLogs(c) || step == Unlock(c) || step == Encode(c, true) || step == Start(c) || step == Deliver(c, true)
    || step == Drained(c) || step == SeeDone(c) || step == SeeEnd(c) || step == Close(c) || step == Cleanup(c)
  }

  /** A handler waits only for the server's lock, or while streaming for a message, for the
      client to go, or for the session to end. */
  predicate HandlerWaits(s: Server, c: nat)
    requires Known(s, c)
  {
    var k := s.clients[c];
    || k.handler.Gone?
    || ((k.handler.Starting? || k.handler.Leaving?) && s.lock.Some?)
    || (k.handler.Streaming? && k.queue == [] && !k.done && !s.ended)
  }

  /** A handler reads the processes there are, and one that streams has let the commands start. */
  predicate HandlerOk(limits: map<string, int>, s: Server, c: nat)
    requires Known(s, c)
  {
    var h := s.clients[c].handler;
    && (h.Reading? ==> forall n :: n in h.left ==> n in limits)
    && (h.Streaming? || h.Draining? ==> s.started)
  }

  ghost predicate HandlersOk(limits: map<string, int>, s: Server) {
    forall c: nat :: Known(s, c) ==> HandlerOk(limits, s, c)
  }

  lemma WorkerFrame(limits: map<string, int>, s: Server, s': Server, step: Step)
    requires WorkerNext(limits, s, s', step)
    ensures s'.started == s.started && |s'.clients| == |s.clients|
  {
  }

  lemma WorkerHandlers(limits: map<string, int>, s: Server, s': Server, step: Step)
    requires WorkerNext(limits, s, s', step) && HandlersOk(limits, s)
    ensures HandlersOk(limits, s')
  {
    hide WorkerNext;
    WorkerFrame(limits, s, s', step);
    forall c: nat | Known(s', c) ensures HandlerOk(limits, s', c) {
      assert HandlerOk(limits, s, c);
      WorkerLeavesHandlers(limits, s, s', step, c);
    }
  }

  lemma OneHandler(limits: map<string, int>, s: Server, s': Server, step: Step, c: nat)
    requires HandlerNext(limits, s, s', step) && Known(s', c) && (Known(s, c) ==> HandlerOk(limits, s, c))
    ensures HandlerOk(limits, s', c)
  {
  }

  lemma HandlerHandlers(limits: map<string, int>, s: Server, s': Server, step: Step)
    requires HandlerNext(limits, s, s', step) && HandlersOk(limits, s)
    ensures HandlersOk(limits, s')
  {
    hide HandlerNext, HandlerOk;
    forall c: nat | Known(s', c) ensures HandlerOk(limits, s', c) {
      OneHandler(limits, s, s', step, c);
    }
  }

  lemma {:induction false} RunHandlers(limits: map<string, int>, trace: seq<Server>, steps: seq<Step>, i: nat)
    requires Trace(limits, trace, steps) && i < |trace|
    ensures HandlersOk(limits, trace[i])
  {
    hide WorkerNext, HandlerNext, HandlersOk;
    if i == 0 {
      NoHandlers(limits, trace[0]);
    } else {
      RunHandlers(limits, trace, steps, i - 1);
      assert Next(limits, trace[i - 1], trace[i - 1 + 1], steps[i - 1]);
      if WorkerNext(limits, trace[i - 1], trace[i], steps[i - 1]) { WorkerHandlers(limits, trace[i - 1], trace[i], steps[i - 1]); }
      else { HandlerHandlers(limits, trace[i - 1], trace[i], steps[i - 1]); }
    }
  }

  lemma NoHandlers(limits: map<string, int>, s: Server)
    requires Init(limits, s)
    ensures HandlersOk(limits, s)
  {
  }

  lemma BeforeGoesOn(limits: map<string, int>, s: Server, c: nat)
    requires Inv(limits, s) && HandlersOk(limits, s) && Known(s, c)
    ensures var h := s.clients[c].handler;
            && (h.Reading? ==> Enabled(limits, s, if h.left == [] then Unlock(c) else ReadLogs(c)))
            && (h.Encoding? ==> Enabled(limits, s, Encode(c, true)) && Enabled(limits, s, Encode(c, false)))
            && (h.Starting? && s.lock.None? ==> Enabled(limits, s, Start(c)))
  {
    hide Inv, WorkerNext;
    var k := s.clients[c];
    if k.handler.Reading? {
      if k.handler.left == [] {
        EnabledBy(limits, s, Put(s, c, k.(handler := Encoding)).(lock := None), Unlock(c));
      } else {
        var n := k.handler.left[0];
        AddedKeys(limits, s);
        EnabledBy(limits, s, Put(s, c, k.(history := k.history[n := Since(limits[n], s.added[n], 0)], handler := Reading(k.handler.left[1..]))), ReadLogs(c));
      }
    } else if k.handler.Encoding? {
      EnabledBy(limits, s, Put(s, c, k.(handler := Starting)), Encode(c, true));
      EnabledBy(limits, s, Put(s, c, k.(handler := Closing)), Encode(c, false));
    } else if k.handler.Starting? && s.lock.None? {
      EnabledBy(limits, s, Put(s, c, k.(handler := Streaming)).(started := true, starts := if s.started then s.starts else s.starts + 1), Start(c));
    }
  }

  lemma AddedKeys(limits: map<string, int>, s: Server)
    requires Inv(limits, s)
    ensures s.added.Keys == limits.Keys
  {
    hide SentOk, LogOk, ClientOk;
  }

  lemma StreamGoesOn(limits: map<string, int>, s: Server, c: nat)
    requires Known(s, c) && (s.clients[c].handler.Streaming? || s.clients[c].handler.Draining?)
    ensures var k := s.clients[c];
            && (k.queue != [] ==> Enabled(limits, s, Deliver(c, true)) && Enabled(limits, s, Deliver(c, false)))
            && (k.handler.Streaming? && k.done ==> Enabled(limits, s, SeeDone(c)))
            && (k.handler.Streaming? && s.ended ==> Enabled(limits, s, SeeEnd(c)))
            && (k.handler.Draining? && k.queue == [] ==> Enabled(limits, s, Drained(c)))
            && Enabled(limits, s, Eof(c))
  {
    hide WorkerNext;
    var k := s.clients[c];
    if k.queue != [] {
      var m := k.queue[0];
      EnabledBy(limits, s, Put(s, c, k.(queue := k.queue[1..], delivered := k.delivered + [m], handler := if m.Result? then Closing else k.handler)), Deliver(c, true));
      EnabledBy(limits, s, Put(s, c, k.(queue := k.queue[1..], lost := [m], handler := Closing)), Deliver(c, false));
    }
    if k.handler.Streaming? && k.done { EnabledBy(limits, s, Put(s, c, k.(handler := Closing)), SeeDone(c)); }
    if k.handler.Streaming? && s.ended { EnabledBy(limits, s, Put(s, c, k.(handler := Draining)), SeeEnd(c)); }
    EnabledBy(limits, s, Put(s, c, k.(done := true)), Eof(c));
    if k.handler.Draining? && k.queue == [] { EnabledBy(limits, s, Put(s, c, k.(handler := Closing)), Drained(c)); }
  }

  lemma EndGoesOn(limits: map<string, int>, s: Server, c: nat)
    requires Known(s, c)
    ensures s.clients[c].handler.Closing? ==> Enabled(limits, s, Close(c))
    ensures s.clients[c].handler.Leaving? && s.lock.None? ==> Enabled(limits, s, Cleanup(c))
  {
    hide WorkerNext;
    var k := s.clients[c];
    if k.handler.Closing? { EnabledBy(limits, s, Put(s, c, k.(handler := Leaving, done := true)), Close(c)); }
    if k.handler.Leaving? && s.lock.None? {
      var s' := if s.active == Some(c) then Put(s, c, k.(handler := Gone, upTo := Some(|s.log|))).(active := None) else Put(s, c, k.(handler := Gone));
      EnabledBy(limits, s, s', Cleanup(c));
    }
  }

  /** No handler is ever stuck: it can take a step of its own, or waits for what it has to. */
  lemma HandlerGoesOn(limits: map<string, int>, trace: seq<Server>, steps: seq<Step>, i: nat, c: nat)
    requires Trace(limits, trace, steps) && i < |trace| && Known(trace[i], c)
    ensures HandlerWaits(trace[i], c) || exists step :: HandlerStep(step, c) && Enabled(limits, trace[i], step)
  {
    hide Init, Next, Inv, Enabled;
    RunKeeps(limits, trace, steps, i);
    RunHandlers(limits, trace, steps, i);
    var s, k := trace[i], trace[i].clients[c];
    if !HandlerWaits(s, c) {
      var step: Step;
      if k.handler.Reading? || k.handler.Encoding? || k.handler.Starting? {
        BeforeGoesOn(limits, s, c);
        step := if k.handler.Reading? then (if k.handler.left == [] then Unlock(c) else ReadLogs(c)) else if k.handler.Encoding? then Encode(c, true) else Start(c);
      } else if k.handler.Streaming? || k.handler.Draining? {
        StreamGoesOn(limits, s, c);
        step := if k.queue != [] then Deliver(c, true) else if k.handler.Draining? then Drained(c) else if k.done then SeeDone(c) else SeeEnd(c);
      } else {
        EndGoesOn(limits, s, c);
        step := if k.handler.Closing? then Close(c) else Cleanup(c);
      }
      assert HandlerStep(step, c) && Enabled(limits, s, step);
    }
  }

  /** A message can be handed on: nobody listens, there is room, or the listener is gone. */
  predicate Deliverable(s: Server) {
    s.active.Some? && Known(s, s.active.value) ==> |s.clients[s.active.value].queue| < EventBufferSize || s.clients[s.active.value].done
  }

  function Handed(s: Server, m: Message): Server
    requires s.active.Some? ==> Known(s, s.active.value)
  {
    if s.active.None? then s.(log := s.log + [m])
    else
      var c, k := s.active.value, s.clients[s.active.value];
      if |k.queue| < EventBufferSize then s.(log := s.log + [m], clients := s.clients[c := k.(queue := k.queue + [m])])
      else s.(log := s.log + [m], active := None, clients := s.clients[c := k.(upTo := Some(|s.log|))])
  }

  lemma HandedIs(s: Server, m: Message)
    requires Deliverable(s) && (s.active.Some? ==> Known(s, s.active.value))
    ensures Enqueue(s, Handed(s, m), m)
  {
  }

  /** The event loop goes on: it serves once a client has been prepared, publishes what was sent
      and then the result unless a present client's queue is full, and ends; and a client
      is attached whenever none is and the session is not closing. */
  lemma WorkerGoesOn(limits: map<string, int>, s: Server, names: seq<string>)
    requires Inv(limits, s)
    ensures s.phase.Waiting? && s.started ==> Enabled(limits, s, Serve)
    ensures s.phase.Serving? && s.lock.None? && Deliverable(s) ==> Enabled(limits, s, if |s.log| < |s.sent| then Publish else Finish)
    ensures s.phase.Finishing? ==> Enabled(limits, s, End)
    ensures s.lock.None? && !s.closing && s.active.None? && Enumerated(limits, names) ==> Enabled(limits, s, Attach(names))
  {
    hide ClientOk, SentOk, Enqueue;
    ActiveKnown(limits, s);
    if s.phase.Waiting? && s.started { EnabledBy(limits, s, s.(phase := Phase.Serving), Serve); }
    if s.phase.Serving? && s.lock.None? && Deliverable(s) {
      if |s.log| < |s.sent| {
        HandedIs(s, Live(s.sent[|s.log|]));
        EnabledBy(limits, s, Handed(s, Live(s.sent[|s.log|])), Publish);
      } else {
        var t := s.(closing := true, phase := Finishing);
        HandedIs(t, Result);
        EnabledBy(limits, s, Handed(t, Result), Finish);
      }
    }
    if s.phase.Finishing? { EnabledBy(limits, s, s.(ended := true, phase := Over), End); }
    if s.lock.None? && !s.closing && s.active.None? && Enumerated(limits, names) {
      var s' := s.(active := Some(|s.clients|), lock := Some(|s.clients|),
                   clients := s.clients + [Client(Reading(names), map[], [], [], [], false, |s.log|, None)]);
      EnabledBy(limits, s, s', Attach(names));
    }
  }

  lemma ActiveKnown(limits: map<string, int>, s: Server)
    requires Inv(limits, s)
    ensures (s.active.Some? ==> Known(s, s.active.value)) && s.starts == (if s.started then 1 else 0)
    ensures s.phase.Serving? ==> |s.log| <= |s.sent|
  {
    hide ClientOk, SentOk;
  }
}
