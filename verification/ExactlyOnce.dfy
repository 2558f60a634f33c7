/** Exactly-once output: wherever a client's snapshot falls between a line being added to a
    buffer and its event being published, it prints every line of the window it found and
    then every later line once, in cursor order. */
module ExactlyOnce {
  import opened Options
  import opened LogRing
  import opened AttachProtocol
  import opened AttachInvariant
  import opened Headless

  /** The lines a..b of a process, with their cursors. */
  function Numbered(n: string, added: seq<Entry>, a: nat, b: nat): seq<Event>
    requires a <= b <= |added|
  {
    seq(b - a, i requires 0 <= i < b - a => Line(n, a + i + 1, added[a + i]))
  }

  /** The history of a process is its window, each line with its own cursor. */
  lemma HistoryIsWindow(n: string, limit: int, added: seq<Entry>, batch: Batch<Entry>)
    requires limit > 0 && batch.cursor <= |added| && batch == Since(limit, added[..batch.cursor], 0)
    ensures var s := batch.cursor;
            HistoryLines(n, batch) == Numbered(n, added, s - Retained(limit, added[..s]), s)
  {
    var s := batch.cursor;
    var h := added[..s];
    if s > limit {
      assert batch.entries == h[s - limit..];
    } else {
      assert batch.entries == h[0..] == h;
    }
  }

  // ---------- After the history ----------

  /** The loop starts from the largest cursor of the history, in whatever order it comes. */
  lemma {:induction false} RecallMax(history: seq<Event>, n: string, s: int)
    requires AllLines(history) && 0 <= s && forall e :: e in history && e.process == n ==> e.cursor <= s
    ensures 0 <= CursorOf(Recalled(history).cursors, n) <= s
    ensures (exists e :: e in history && e.process == n && e.cursor == s) ==> CursorOf(Recalled(history).cursors, n) == s
    decreases |history|
  {
    if history != [] {
      var front, last := history[..|history| - 1], history[|history| - 1];
      assert history == front + [last];
      RecallMax(front, n, s);
    }
  }

  // ---------- The live stream ----------

  /** The share of the event stream a client has received. */
  lemma {:induction false} EventsOfShare(messages: seq<Message>, sent: seq<Event>, from: nat)
    requires from <= |sent|
    requires forall j :: 0 <= j < |messages| ==> messages[j] == if from + j < |sent| then Live(sent[from + j]) else Result
    ensures from + |EventsOf(messages)| <= |sent| && EventsOf(messages) == sent[from..from + |EventsOf(messages)|]
    ensures Result in messages ==> from + |EventsOf(messages)| == |sent|
    decreases |messages|
  {
    if messages != [] && messages[0].Live? {
      var rest := messages[1..];
      forall j | 0 <= j < |rest| ensures rest[j] == if from + 1 + j < |sent| then Live(sent[from + 1 + j]) else Result {
        assert rest[j] == messages[j + 1];
      }
      EventsOfShare(rest, sent, from + 1);
      assert messages == [messages[0]] + rest;
    } else if messages != [] {
      assert messages[0] == Result;
      assert from + 0 >= |sent|;
    }
  }

  lemma ReceiveOther(q: Printer, e: Event, n: string)
    requires !(e.Line? && e.process == n)
    ensures CursorOf(Receive(q, e).cursors, n) == CursorOf(q.cursors, n)
    ensures Of(Receive(q, e).printed, n) == Of(q.printed, n)
  {
    OfSnoc(q.printed, e, n);
  }

  /** A line the history already had is dropped, a later one is printed. */
  lemma ReceiveOwn(q: Printer, e: Event, n: string)
    requires e.Line? && e.process == n && e.cursor > 0
    ensures e.cursor <= CursorOf(q.cursors, n) ==> Receive(q, e) == q
    ensures e.cursor > CursorOf(q.cursors, n) ==>
      CursorOf(Receive(q, e).cursors, n) == e.cursor && Of(Receive(q, e).printed, n) == Of(q.printed, n) + [e]
  {
    OfSnoc(q.printed, e, n);
  }

  lemma NumberedSnoc(n: string, added: seq<Entry>, a: nat, b: nat)
    requires a <= b < |added|
    ensures Numbered(n, added, a, b + 1) == Numbered(n, added, a, b) + [Line(n, b + 1, added[b])]
  {
  }

  /** The loop stands at line k of process n and has printed what follows start. */
  ghost predicate StandsAt(q: Printer, n: string, added: seq<Entry>, before: seq<Event>, start: nat, k: int) {
    start <= k <= |added| && CursorOf(q.cursors, n) == k && Of(q.printed, n) == before + Numbered(n, added, start, k)
  }

  lemma ReceiveLine(q: Printer, e: Event, n: string, added: seq<Entry>, before: seq<Event>, start: nat, lines: nat)
    requires StandsAt(q, n, added, before, start, Max(start, lines))
    requires e.Line? && e.process == n && lines < |added| && e == Line(n, lines + 1, added[lines])
    ensures StandsAt(Receive(q, e), n, added, before, start, Max(start, lines + 1))
  {
    hide Of, Numbered, Receive, CursorOf;
    ReceiveOwn(q, e, n);
    if lines >= start {
      NumberedSnoc(n, added, start, lines);
      assert before + Numbered(n, added, start, lines) + [e] == before + (Numbered(n, added, start, lines) + [e]);
    }
  }

  lemma ReceiveStep(limits: map<string, int>, s: Server, q: Printer, n: string, at: nat, before: seq<Event>, start: nat)
    requires SentOk(limits, s) && at < |s.sent| && n in limits && limits[n] > 0 && n in s.added
    requires StandsAt(q, n, s.added[n], before, start, Max(start, LinesOf(s.sent[..at], n)))
    ensures StandsAt(Receive(q, s.sent[at]), n, s.added[n], before, start, Max(start, LinesOf(s.sent[..at + 1], n)))
  {
    hide Of, Numbered, Receive, CursorOf, LinesOf;
    var e := s.sent[at];
    assert s.sent[..at + 1] == s.sent[..at] + [e];
    LinesSnoc(s.sent[..at], e, n);
    if e.Line? && e.process == n {
      assert LineOk(limits, s.added, s.sent, at);
      ReceiveLine(q, e, n, s.added[n], before, start, LinesOf(s.sent[..at], n));
    } else {
      ReceiveOther(q, e, n);
    }
  }

  /** Having received the stream up to some point, the loop has printed exactly the lines
      after those of the history. */
  lemma {:induction false} ReceivedLines(limits: map<string, int>, s: Server, p: Printer, n: string, from: nat, till: nat, start: nat)
    requires SentOk(limits, s) && from <= till <= |s.sent| && n in limits && limits[n] > 0 && n in s.added
    requires start <= |s.added[n]| && CursorOf(p.cursors, n) == start && LinesOf(s.sent[..from], n) <= start
    ensures StandsAt(Received(p, s.sent[from..till]), n, s.added[n], Of(p.printed, n), start, Max(start, LinesOf(s.sent[..till], n)))
    decreases till
  {
    hide Of, Receive, CursorOf, LinesOf, SentOk;
    if till > from {
      var live := s.sent[from..till - 1];
      ReceivedLines(limits, s, p, n, from, till - 1, start);
      assert s.sent[from..till] == live + [s.sent[till - 1]];
      ReceivedSnoc(p, live, s.sent[till - 1]);
      ReceiveStep(limits, s, Received(p, live), n, till - 1, Of(p.printed, n), start);
    } else {
      assert s.sent[from..till] == [];
      assert Numbered(n, s.added[n], start, start) == [];
    }
  }

  // ---------- Together ----------

  /** A client whose snapshot is complete. */
  ghost predicate Snapshotted(s: Server, c: nat) {
    Known(s, c) && !s.clients[c].handler.Reading?
  }

  lemma SnapshotHas(limits: map<string, int>, s: Server, c: nat, n: string)
    requires Inv(limits, s) && Snapshotted(s, c) && n in limits && limits[n] > 0
    ensures n in s.clients[c].history && n in s.added && LinesOf(s.sent, n) <= |s.added[n]|
    ensures s.clients[c].from <= |s.sent|
    ensures var batch := s.clients[c].history[n];
            && batch.cursor <= |s.added[n]| && batch == Since(limits[n], s.added[n][..batch.cursor], 0)
            && LinesOf(s.sent[..s.clients[c].from], n) <= batch.cursor
  {
    hide SentOk, LogOk;
    assert ClientOk(limits, s, c);
    assert n in s.clients[c].history;
    assert HistoryOk(limits[n], s.added[n], s.sent, s.clients[c].from, n, s.clients[c].history[n]);
  }

  lemma SnapshotShare(limits: map<string, int>, s: Server, c: nat)
    requires Inv(limits, s) && Known(s, c)
    ensures var k, live := s.clients[c], EventsOf(s.clients[c].delivered);
            && k.from + |live| <= |s.sent| && live == s.sent[k.from..k.from + |live|]
            && (Result in k.delivered ==> k.from + |live| == |s.sent|)
  {
    hide SentOk, GlobalOk, HistoriesOk;
    assert ClientOk(limits, s, c);
    var k := s.clients[c];
    LogShape(s);
    forall j | 0 <= j < |k.delivered| ensures k.delivered[j] == if k.from + j < |s.sent| then Live(s.sent[k.from + j]) else Result {
      assert k.delivered[j] == s.log[k.from..ShareEnd(s, k)][j];
    }
    EventsOfShare(k.delivered, s.sent, k.from);
  }

  /** The loop's cursor after the history is that of the snapshot. */
  lemma SnapshotCursor(n: string, added: seq<Entry>, w: nat, s: nat, history: seq<Event>)
    requires w <= s <= |added| && (w == s ==> s == 0) && AllLines(history)
    requires multiset(Of(history, n)) == multiset(Numbered(n, added, w, s))
    ensures CursorOf(Recalled(history).cursors, n) == s
  {
    var lines := Numbered(n, added, w, s);
    forall e | e in history && e.process == n ensures e.cursor <= s {
      InOf(history, e, n);
      assert e in multiset(lines);
    }
    RecallMax(history, n, s);
    if w < s {
      var last := lines[|lines| - 1];
      assert last in multiset(Of(history, n));
      OfLines(history, n);
      assert last in history && last.process == n && last.cursor == s;
    }
  }

  lemma {:induction false} InOf(events: seq<Event>, e: Event, n: string)
    requires e in events && e.Line? && e.process == n
    ensures e in Of(events, n)
    decreases |events|
  {
    var last := events[|events| - 1];
    if e != last {
      assert e in events[..|events| - 1];
      InOf(events[..|events| - 1], e, n);
    }
  }

  /** Sorting keeps the bag of lines of each process. */
  lemma {:induction false} OfBag(a: seq<Event>, b: seq<Event>, n: string)
    requires AllLines(a) && multiset(a) == multiset(b)
    ensures multiset(Of(a, n)) == multiset(Of(b, n))
  {
    forall e ensures multiset(Of(a, n))[e] == multiset(Of(b, n))[e] {
      OfCount(a, n, e);
      OfCount(b, n, e);
    }
  }

  lemma {:induction false} OfCount(events: seq<Event>, n: string, e: Event)
    ensures multiset(Of(events, n))[e] == if e.Line? && e.process == n then multiset(events)[e] else 0
    decreases |events|
  {
    if events != [] {
      var front, last := events[..|events| - 1], events[|events| - 1];
      assert events == front + [last];
      OfCount(front, n, e);
    }
  }

  /** Exactly once: at any point of any run, for a process with retention, a client whose
      snapshot was taken at cursor s has printed the retained window that ended at s, each
      line once, and then exactly the lines after s up to the last one it has been sent,
      each once and in cursor order, whatever was published or added around the
      snapshot. Every line published before it attached is at or below s. */
  lemma PrintsExactlyOnce(limits: map<string, int>, trace: seq<Server>, steps: seq<Step>, i: nat, c: nat, n: string,
                          collected: seq<Event>, history: seq<Event>)
    requires Trace(limits, trace, steps) && i < |trace| && Snapshotted(trace[i], c) && n in limits && limits[n] > 0
    requires Collected(trace[i].clients[c].history, collected)
    requires AllLines(history) && multiset(history) == multiset(collected)
    ensures var s, k := trace[i], trace[i].clients[c];
            && n in k.history && n in s.added
            && var start, live := k.history[n].cursor, EventsOf(k.delivered);
               && start <= |s.added[n]| && k.from + |live| <= |s.sent|
               && LinesOf(s.sent[..k.from], n) <= start
               && var window, end := start - Retained(limits[n], s.added[n][..start]), Max(start, LinesOf(s.sent[..k.from + |live|], n));
                  && end <= |s.added[n]|
                  && multiset(Of(history, n)) == multiset(Numbered(n, s.added[n], window, start))
                  && Of(Received(Recalled(history), live).printed, n) == Of(history, n) + Numbered(n, s.added[n], start, end)
                  && (Result in k.delivered ==> k.from + |live| == |s.sent|)
  {
    hide Next, Init, Inv, Of, Recalled, Received, SentOk, HistoryLines, EventsOf, Numbered, Trace;
    RunKeeps(limits, trace, steps, i);
    var s, k := trace[i], trace[i].clients[c];
    SnapshotHas(limits, s, c, n);
    SnapshotShare(limits, s, c);
    var batch := k.history[n];
    var start := batch.cursor;
    HistoryIsWindow(n, limits[n], s.added[n], batch);
    OfBag(history, collected, n);
    SnapshotCursor(n, s.added[n], start - Retained(limits[n], s.added[n][..start]), start, history);
    RecalledPrinted(history);
    InvSent(limits, s);
    ReceivedLines(limits, s, Recalled(history), n, k.from, k.from + |EventsOf(k.delivered)|, start);
  }

  lemma InvSent(limits: map<string, int>, s: Server)
    requires Inv(limits, s)
    ensures SentOk(limits, s)
  {
  }

  lemma NumberedJoin(n: string, added: seq<Entry>, a: nat, b: nat, c: nat)
    requires a <= b <= c <= |added|
    ensures Numbered(n, added, a, b) + Numbered(n, added, b, c) == Numbered(n, added, a, c)
  {
  }

  lemma NumberedSorted(n: string, added: seq<Entry>, a: nat, b: nat)
    requires a <= b <= |added| && forall i, j :: a <= i < j < b ==> added[i].time <= added[j].time
    ensures SortedByTime(Numbered(n, added, a, b))
  {
    var lines := Numbered(n, added, a, b);
    forall i, j | 0 <= i < j < |lines| ensures lines[i].entry.time <= lines[j].entry.time {
      assert lines[i].entry == added[a + i] && lines[j].entry == added[a + j];
    }
  }

  /** With timestamps that do not run backwards the window is printed in order too: the
      whole output is the lines from the window's first to the last one sent. */
  lemma PrintsInOrder(n: string, added: seq<Entry>, w: nat, start: nat, end: nat, collected: seq<Event>)
    requires w <= start <= end <= |added| && AllLines(collected) && Of(collected, n) == Numbered(n, added, w, start)
    requires forall i, j :: w <= i < j < start ==> added[i].time <= added[j].time
    ensures Of(StableByTime(collected), n) + Numbered(n, added, start, end) == Numbered(n, added, w, end)
  {
    hide Of, Numbered, StableByTime, SortedByTime;
    NumberedSorted(n, added, w, start);
    StableOf(collected, n);
    NumberedJoin(n, added, w, start, end);
  }

  // ---------- Processes without retention ----------

  /** The lines a..b of a process whose lines carry no cursor. */
  function Plain(n: string, added: seq<Entry>, a: nat, b: nat): seq<Event>
    requires a <= b <= |added|
  {
    seq(b - a, i requires 0 <= i < b - a => Line(n, 0, added[a + i]))
  }

  lemma PlainSnoc(n: string, added: seq<Entry>, a: nat, b: nat)
    requires a <= b < |added|
    ensures Plain(n, added, a, b + 1) == Plain(n, added, a, b) + [Line(n, 0, added[b])]
  {
  }

  /** What is sent of such a process between two points of the stream. */
  lemma {:induction false} SentPlain(limits: map<string, int>, s: Server, n: string, from: nat, till: nat)
    requires SentOk(limits, s) && from <= till <= |s.sent| && n in limits && limits[n] <= 0 && n in s.added
    ensures LinesOf(s.sent[..from], n) <= LinesOf(s.sent[..till], n) <= Max(|s.added[n]|, LinesOf(s.sent[..from], n))
    ensures LinesOf(s.sent[..from], n) <= |s.added[n]| ==>
              Of(s.sent[from..till], n) == Plain(n, s.added[n], LinesOf(s.sent[..from], n), LinesOf(s.sent[..till], n))
    ensures forall e :: e in s.sent[from..till] && e.Line? && e.process == n ==> e.cursor == 0
    decreases till
  {
    hide SentOk, LinesOf, Of, Plain;
    if till == from {
      assert s.sent[from..till] == [];
      NothingPlain(n, s.added[n], LinesOf(s.sent[..from], n));
    } else {
      SentPlain(limits, s, n, from, till - 1);
      var e := s.sent[till - 1];
      assert s.sent[from..till] == s.sent[from..till - 1] + [e];
      assert s.sent[..till] == s.sent[..till - 1] + [e];
      LinesSnoc(s.sent[..till - 1], e, n);
      OfSnoc(s.sent[from..till - 1], e, n);
      if e.Line? && e.process == n {
        SentLine(limits, s, till - 1);
        if LinesOf(s.sent[..from], n) <= |s.added[n]| { PlainSnoc(n, s.added[n], LinesOf(s.sent[..from], n), LinesOf(s.sent[..till - 1], n)); }
      }
    }
  }

  lemma NothingPlain(n: string, added: seq<Entry>, a: nat)
    ensures Of([], n) == [] && (a <= |added| ==> Plain(n, added, a, a) == [])
  {
  }

  lemma SentLine(limits: map<string, int>, s: Server, i: nat)
    requires SentOk(limits, s) && i < |s.sent| && s.sent[i].Line?
    ensures LineOk(limits, s.added, s.sent, i)
  {
  }

  /** Without retention a client prints exactly the lines sent while it was attached, each once
      and in order. */
  lemma PrintsAsSent(limits: map<string, int>, trace: seq<Server>, steps: seq<Step>, i: nat, c: nat, n: string,
                     collected: seq<Event>, history: seq<Event>)
    requires Trace(limits, trace, steps) && i < |trace| && Snapshotted(trace[i], c) && n in limits && limits[n] <= 0
    requires Collected(trace[i].clients[c].history, collected)
    requires AllLines(history) && multiset(history) == multiset(collected)
    ensures var s, k := trace[i], trace[i].clients[c];
            && n in s.added
            && var live := EventsOf(k.delivered);
               && k.from + |live| <= |s.sent|
               && var start, end := LinesOf(s.sent[..k.from], n), LinesOf(s.sent[..k.from + |live|], n);
                  && start <= end <= |s.added[n]|
                  && Of(Received(Recalled(history), live).printed, n) == Plain(n, s.added[n], start, end)
                  && (Result in k.delivered ==> k.from + |live| == |s.sent|)
  {
    hide Next, Init, Inv, Of, Recalled, Received, SentOk, HistoryLines, EventsOf, Plain, Trace, LinesOf;
    RunKeeps(limits, trace, steps, i);
    var s, k := trace[i], trace[i].clients[c];
    var live := EventsOf(k.delivered);
    SnapshotShare(limits, s, c);
    InvSent(limits, s);
    UnretainedShare(limits, s, c, n);
    SentPlain(limits, s, n, k.from, k.from + |live|);
    OfBag(history, collected, n);
    NothingRetained(k.history, n, collected);
    RecalledPrinted(history);
    PrintsUnnumbered(Recalled(history), live, n);
    assert multiset(Of(history, n)) == multiset{};
    EmptyBag(Of(history, n));
    assert [] + Of(live, n) == Of(live, n);
  }

  lemma EmptyBag(events: seq<Event>)
    requires multiset(events) == multiset{}
    ensures events == []
  {
    assert |multiset(events)| == |events|;
  }

  lemma NothingRetained(history: map<string, Batch<Entry>>, n: string, collected: seq<Event>)
    requires Collected(history, collected) && (n in history ==> history[n].entries == [])
    ensures Of(collected, n) == []
  {
    if n in history { assert HistoryLines(n, history[n]) == []; }
  }

  lemma UnretainedShare(limits: map<string, int>, s: Server, c: nat, n: string)
    requires Inv(limits, s) && Snapshotted(s, c) && n in limits && limits[n] <= 0
    ensures n in s.added && (n in s.clients[c].history ==> s.clients[c].history[n].entries == [])
    ensures s.clients[c].from <= |s.sent|
    ensures LinesOf(s.sent[..s.clients[c].from], n) <= LinesOf(s.sent, n) <= |s.added[n]|
  {
    hide SentOk, LogOk;
    assert ClientOk(limits, s, c);
    LinesPrefix(s.sent, s.clients[c].from, n);
    if n in s.clients[c].history {
      assert HistoryOk(limits[n], s.added[n], s.sent, s.clients[c].from, n, s.clients[c].history[n]);
    }
  }
}
