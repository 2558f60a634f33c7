/** The session server as an object whose fields its handlers and its event loop update under
    the lock. Each method is one stretch under the lock, or one turn of a handler's
    loop, and is proved to be the step of the protocol it stands for. */
module AttachSections {
  import opened Options
  import DependencyGraph
  import opened LogRing
  import opened AttachProtocol

  datatype Refusal = AlreadyAttached | SessionStopping

  /** The same processes, each with at least the lines it had. */
  ghost predicate Grows(before: map<string, seq<Entry>>, after: map<string, seq<Entry>>) {
    before.Keys == after.Keys && forall n :: n in before ==> before[n] <= after[n]
  }

  ghost predicate AllGrow(moments: seq<map<string, seq<Entry>>>) {
    forall i :: 0 < i < |moments| ==> Grows(moments[i - 1], moments[i])
  }

  /** Each of the processes, and no other, was read at its moment. */
  ghost predicate ReadDuring(limits: map<string, int>, moments: seq<map<string, seq<Entry>>>, names: seq<string>,
                             history: map<string, Batch<Entry>>)
  {
    && |moments| == |names| && history.Keys == (set n | n in names)
    && forall i :: 0 <= i < |names| ==> ReadAt(limits, moments[i], names[i], history)
  }

  /** The process was read when its lines were these. */
  predicate ReadAt(limits: map<string, int>, added: map<string, seq<Entry>>, n: string, history: map<string, Batch<Entry>>) {
    n in limits && n in added && n in history && history[n] == Since(limits[n], added[n], 0)
  }

  lemma NothingRead(limits: map<string, int>)
    ensures ReadDuring(limits, [], [], map[])
  {
  }

  lemma GrowsNot(added: map<string, seq<Entry>>)
    ensures Grows(added, added)
  {
  }

  lemma GrowsOn(moments: seq<map<string, seq<Entry>>>, k: nat)
    requires k + 1 < |moments| && AllGrow(moments) && Grows(moments[0], moments[k])
    ensures Grows(moments[0], moments[k + 1]) && moments[k + 1].Keys == moments[0].Keys
  {
    assert Grows(moments[k + 1 - 1], moments[k + 1]);
  }

  lemma ReadNext(limits: map<string, int>, moments: seq<map<string, seq<Entry>>>, names: seq<string>, k: nat,
                 history: map<string, Batch<Entry>>)
    requires k < |names| == |moments| && DependencyGraph.Distinct(names)
    requires names[k] in limits && names[k] in moments[k]
    requires ReadDuring(limits, moments[..k], names[..k], history)
    ensures ReadDuring(limits, moments[..k + 1], names[..k + 1],
                       history[names[k] := Since(limits[names[k]], moments[k][names[k]], 0)])
  {
    hide Since;
    var next := history[names[k] := Since(limits[names[k]], moments[k][names[k]], 0)];
    assert names[..k + 1] == names[..k] + [names[k]];
    forall i | 0 <= i <= k ensures ReadAt(limits, moments[i], names[i], next) {
      assert i < k ==> ReadAt(limits, moments[..k][i], names[..k][i], history) && names[i] != names[k];
    }
  }

  class Worker {
    const limits: map<string, int>
    var added: map<string, seq<Entry>>
    var sent: seq<Event>
    var log: seq<Message>
    var active: Option<nat>
    var lock: Option<nat>
    var clients: seq<Client>
    var started: bool
    var starts: nat
    var closing: bool
    var ended: bool
    var phase: Phase

    ghost function View(): Server
      reads this
    {
      Server(added, sent, log, active, lock, clients, started, starts, closing, ended, phase)
    }

    constructor (limits: map<string, int>)
      ensures this.limits == limits && Init(limits, View())
    {
      this.limits := limits;
      added := map n | n in limits :: [];
      sent, log, active, lock, clients := [], [], None, None, [];
      started, starts, closing, ended, phase := false, 0, false, false, Waiting;
    }

    /** The first section of attach: it refuses, a stopping session before all, or takes the
        attachment and keeps the lock for the snapshot. */
    method BeginAttach(names: seq<string>) returns (refusal: Option<Refusal>, c: nat)
      requires lock.None? && Enumerated(limits, names)
      modifies `active, `lock, `clients
      ensures refusal.Some? <==> old(closing) || old(active).Some?
      ensures refusal.Some? ==> View() == old(View()) && (refusal.value.SessionStopping? <==> old(closing))
      ensures refusal.None? ==> c == |old(clients)| && DoAttach(limits, old(View()), View(), names)
    {
      refusal, c := None, |clients|;
      if closing || active.Some? {
        var message := AlreadyAttached;
        if closing { message := SessionStopping; }
        refusal := Some(message);
        return;
      }
      active, lock := Some(c), Some(c);
      clients := clients + [Client(Reading(names), map[], [], [], [], false, |log|, None)];
    }

    /** One read of the snapshot loop. */
    method ReadOne(c: nat)
      requires c < |clients| && clients[c].handler.Reading? && clients[c].handler.left != []
      requires clients[c].handler.left[0] in limits && clients[c].handler.left[0] in added
      modifies `clients
      ensures DoReadLogs(limits, old(View()), View(), c)
    {
      var k, name := clients[c], clients[c].handler.left[0];
      var batch := Since(limits[name], added[name], 0);
      clients := clients[c := k.(history := k.history[name := batch], handler := Reading(k.handler.left[1..]))];
    }

    /** The snapshot loop. The lock does not keep the forwarders from adding lines: growth
        holds the histories at each read, and every read returns the window of its process
        at that moment. */
    method TakeSnapshot(c: nat, growth: seq<map<string, seq<Entry>>>)
      requires c < |clients| && clients[c].handler.Reading? && clients[c].history == map[] && added.Keys == limits.Keys
      requires DependencyGraph.Distinct(clients[c].handler.left) && forall n :: n in clients[c].handler.left ==> n in limits
      requires |growth| == |clients[c].handler.left| && AllGrow([added] + growth)
      modifies `added, `clients, `lock
      ensures |clients| == |old(clients)| && lock.None? && clients[c].handler.Encoding?
      ensures added == ([old(added)] + growth)[|growth|] && Grows(old(added), added)
      ensures ReadDuring(limits, growth, old(clients)[c].handler.left, clients[c].history)
      ensures forall d :: 0 <= d < |clients| && d != c ==> clients[d] == old(clients)[d]
    {
      hide ReadDuring, Grows, AllGrow, Since, DependencyGraph.Distinct;
      ghost var names, moments := clients[c].handler.left, [added] + growth;
      NothingRead(limits);
      GrowsNot(added);
      var k := 0;
      while clients[c].handler.left != []
        invariant 0 <= k <= |names| == |growth|
        invariant |clients| == |old(clients)| && clients[c].handler == Reading(names[k..])
        invariant added == moments[k] && Grows(old(added), added) && added.Keys == limits.Keys
        invariant ReadDuring(limits, growth[..k], names[..k], clients[c].history)
        invariant forall d :: 0 <= d < |clients| && d != c ==> clients[d] == old(clients)[d]
        decreases |names| - k
      {
        GrowsOn(moments, k);
        ReadNext(limits, growth, names, k, clients[c].history);
        assert names[k..][1..] == names[k + 1..];
        added := growth[k];
        ReadOne(c);
        k := k + 1;
      }
      assert names[..k] == names && growth[..k] == growth;
      clients, lock := clients[c := clients[c].(handler := Encoding)], None;
    }

    /** The section of attach that lets the commands start. */
    method MarkStarted(c: nat)
      requires lock.None? && c < |clients| && clients[c].handler.Starting?
      modifies `clients, `started, `starts
      ensures DoStart(old(View()), View(), c)
    {
      if !started {
        started, starts := true, starts + 1;
      }
      clients := clients[c := clients[c].(handler := Streaming)];
    }

    /** enqueueLocked. When the queue has room and the client is gone as well, either may
        happen; when neither is the case the call waits. */
    method EnqueueLocked(message: Message, preferQueue: bool) returns (waits: bool)
      requires active.Some? ==> active.value < |clients|
      modifies `log, `clients, `active
      ensures waits <==> old(active).Some? && |old(clients)[old(active).value].queue| >= EventBufferSize && !old(clients)[old(active).value].done
      ensures if waits then View() == old(View()) else Enqueue(old(View()), View(), message)
    {
      waits := false;
      if active.None? {
        log := log + [message];
        return;
      }
      var c := active.value;
      var k := clients[c];
      if |k.queue| < EventBufferSize && (preferQueue || !k.done) {
        clients, log := clients[c := k.(queue := k.queue + [message])], log + [message];
      } else if k.done {
        clients, active, log := clients[c := k.(upTo := Some(|log|))], None, log + [message];
      } else {
        waits := true;
      }
    }

    /** publish, for the next event of the stream. */
    method PublishNext(preferQueue: bool) returns (waits: bool)
      requires phase.Serving? && lock.None? && |log| < |sent| && (active.Some? ==> active.value < |clients|)
      modifies `log, `clients, `active
      ensures if waits then View() == old(View()) else DoPublish(old(View()), View())
    {
      waits := EnqueueLocked(Live(sent[|log|]), preferQueue);
    }

    /** The last section of serve. When the queue is full it waits with the closing mark set,
        and goes on from there. */
    method PublishResult(preferQueue: bool) returns (waits: bool)
      requires (phase.Serving? || phase.Finishing?) && lock.None? && |log| == |sent| && (active.Some? ==> active.value < |clients|)
      modifies `log, `clients, `active, `closing, `phase
      ensures if waits then View() == old(View()).(closing := true, phase := Finishing)
              else DoFinish(old(View()).(phase := Serving), View())
    {
      closing, phase := true, Finishing;
      waits := EnqueueLocked(Result, preferQueue);
    }

    /** One turn of the handler's loop that takes a message from the queue; ok tells whether
        it could be written. */
    method DeliverOne(c: nat, ok: bool)
      requires c < |clients| && (clients[c].handler.Streaming? || clients[c].handler.Draining?) && clients[c].queue != []
      modifies `clients
      ensures DoDeliver(old(View()), View(), c, ok)
    {
      var k, message := clients[c], clients[c].queue[0];
      k := k.(queue := k.queue[1..]);
      if ok { k := k.(delivered := k.delivered + [message]); } else { k := k.(lost := [message]); }
      if !ok || message.Result? { k := k.(handler := Closing); }
      clients := clients[c := k];
    }

    /** attachment.close: closing twice is harmless. */
    method CloseAttachment(c: nat)
      requires c < |clients| && clients[c].handler.Closing?
      modifies `clients
      ensures DoClose(old(View()), View(), c)
    {
      clients := clients[c := clients[c].(handler := Leaving, done := true)];
    }

    /** The deferred section of attach. */
    method Detach(c: nat)
      requires lock.None? && c < |clients| && clients[c].handler.Leaving?
      modifies `clients, `active
      ensures DoCleanup(old(View()), View(), c)
    {
      if active == Some(c) {
        clients, active := clients[c := clients[c].(handler := Gone, upTo := Some(|log|))], None;
      } else {
        clients := clients[c := clients[c].(handler := Gone)];
      }
    }
  }
}
