/** The client's side of the attachment stream: the history it reconstructs from its
    snapshot (internal/session/client.go), and the headless loop that drops live lines
    the history already has (cmd/procdeck/main.go). */
module Headless {
  import opened LogRing
  import opened AttachProtocol

  // ---------- The lines of one process ----------

  function Of(events: seq<Event>, n: string): seq<Event> {
    if events == [] then []
    else
      var front, e := Of(events[..|events| - 1], n), events[|events| - 1];
      if e.Line? && e.process == n then front + [e] else front
  }

  lemma OfSnoc(events: seq<Event>, e: Event, n: string)
    ensures Of(events + [e], n) == Of(events, n) + if e.Line? && e.process == n then [e] else []
  {
    assert (events + [e])[..|events|] == events;
  }

  // ---------- History ----------

  /** The retained lines of one process with the cursors they had when they were added. */
  function HistoryLines(n: string, batch: Batch<Entry>): seq<Event> {
    seq(|batch.entries|, i requires 0 <= i < |batch.entries| => Line(n, batch.cursor - (|batch.entries| - i - 1), batch.entries[i]))
  }

  predicate SortedByTime(events: seq<Event>) {
    forall i, j :: 0 <= i < j < |events| && events[i].Line? && events[j].Line? ==> events[i].entry.time <= events[j].entry.time
  }

  predicate AllLines(events: seq<Event>) {
    forall e :: e in events ==> e.Line?
  }

  /** A stable sort moves an event before those that are strictly later. */
  function InsertByTime(events: seq<Event>, e: Event): (r: seq<Event>)
    requires e.Line? && AllLines(events)
    ensures AllLines(r) && |r| == |events| + 1
  {
    if events == [] then [e]
    else if events[|events| - 1].entry.time <= e.entry.time then events + [e]
    else InsertByTime(events[..|events| - 1], e) + [events[|events| - 1]]
  }

  function StableByTime(events: seq<Event>): (r: seq<Event>)
    requires AllLines(events)
    ensures AllLines(r) && |r| == |events|
  {
    if events == [] then [] else InsertByTime(StableByTime(events[..|events| - 1]), events[|events| - 1])
  }

  lemma {:induction false} InsertBag(events: seq<Event>, e: Event)
    requires e.Line? && AllLines(events)
    ensures multiset(InsertByTime(events, e)) == multiset(events) + multiset{e}
    ensures forall x :: x in InsertByTime(events, e) ==> x in events || x == e
    decreases |events|
  {
    if events != [] {
      var front, last := events[..|events| - 1], events[|events| - 1];
      assert events == front + [last];
      if last.entry.time > e.entry.time { InsertBag(front, e); }
    }
  }

  lemma {:induction false} InsertSorted(events: seq<Event>, e: Event)
    requires e.Line? && AllLines(events) && SortedByTime(events)
    ensures SortedByTime(InsertByTime(events, e))
    decreases |events|
  {
    if events != [] {
      var front, last := events[..|events| - 1], events[|events| - 1];
      assert events == front + [last];
      if last.entry.time > e.entry.time {
        InsertSorted(front, e);
        InsertBag(front, e);
        var r := InsertByTime(front, e);
        forall i | 0 <= i < |r| ensures r[i].entry.time <= last.entry.time {
          assert r[i] in r;
          if r[i] in front {
            var j :| 0 <= j < |front| && front[j] == r[i];
            assert events[j] == r[i];
          }
        }
      }
    }
  }

  /** Sorting permutes, and sorts. */
  lemma {:induction false} StableMeaning(events: seq<Event>)
    requires AllLines(events)
    ensures multiset(StableByTime(events)) == multiset(events) && SortedByTime(StableByTime(events))
    decreases |events|
  {
    if events != [] {
      var front, last := events[..|events| - 1], events[|events| - 1];
      assert events == front + [last];
      StableMeaning(front);
      InsertBag(StableByTime(front), last);
      InsertSorted(StableByTime(front), last);
    }
  }

  lemma LastIn(events: seq<Event>, n: string)
    requires events != []
    ensures events[|events| - 1].Line? && events[|events| - 1].process == n ==> events[|events| - 1] in Of(events, n)
  {
  }

  /** Inserting an event not older than the others of its process puts it behind them. */
  lemma {:induction false} InsertOf(events: seq<Event>, e: Event, n: string)
    requires e.Line? && AllLines(events)
    requires e.process == n ==> forall x :: x in Of(events, n) ==> x.Line? && x.entry.time <= e.entry.time
    ensures Of(InsertByTime(events, e), n) == Of(events, n) + if e.process == n then [e] else []
    decreases |events|
  {
    hide Of;
    if events == [] {
      OfSnoc([], e, n);
      NothingOf(n);
      assert [] + [e] == [e];
    } else {
      var front, last := events[..|events| - 1], events[|events| - 1];
      assert events == front + [last];
      OfSnoc(front, last, n);
      if last.entry.time <= e.entry.time {
        OfSnoc(events, e, n);
      } else {
        if e.process == n {
          forall x | x in Of(front, n) ensures x.Line? && x.entry.time <= e.entry.time {
            assert x in Of(events, n);
          }
        }
        LastIn(events, n);
        InsertOf(front, e, n);
        OfSnoc(InsertByTime(front, e), last, n);
      }
    }
  }

  /** Lines of one process whose times do not run backwards keep their order. */
  lemma {:induction false} StableOf(events: seq<Event>, n: string)
    requires AllLines(events) && SortedByTime(Of(events, n))
    ensures Of(StableByTime(events), n) == Of(events, n)
    decreases |events|
  {
    if events != [] {
      var front, last := events[..|events| - 1], events[|events| - 1];
      assert events == front + [last];
      OfSnoc(front, last, n);
      OfLines(front, n);
      if last.process == n {
        var all := Of(events, n);
        forall x | x in Of(front, n) ensures x.entry.time <= last.entry.time {
          var i :| 0 <= i < |Of(front, n)| && Of(front, n)[i] == x;
          assert all[i] == x && all[|all| - 1] == last;
        }
      }
      forall i, j | 0 <= i < j < |Of(front, n)| && Of(front, n)[i].Line? && Of(front, n)[j].Line?
        ensures Of(front, n)[i].entry.time <= Of(front, n)[j].entry.time
      {
        assert Of(events, n)[i] == Of(front, n)[i] && Of(events, n)[j] == Of(front, n)[j];
      }
      StableOf(front, n);
      InsertOf(StableByTime(front), last, n);
    }
  }

  lemma {:induction false} OfLines(events: seq<Event>, n: string)
    ensures forall x :: x in Of(events, n) ==> x.Line? && x.process == n && x in events
    decreases |events|
  {
    if events != [] { OfLines(events[..|events| - 1], n); }
  }

  lemma AppendLine(events: seq<Event>, line: Event, n: string, more: seq<Event>)
    requires line.Line? && line.process == n && more != [] && more[|more| - 1] == line
    ensures forall m :: Of(events + [line], m) == if m == n then Of(events, m) + [line] else Of(events, m)
    ensures more == more[..|more| - 1] + [line]
  {
    forall m ensures Of(events + [line], m) == if m == n then Of(events, m) + [line] else Of(events, m) {
      OfSnoc(events, line, m);
    }
  }

  /** The events hold exactly the retained lines of each process, those of one process in
      the order of the buffer. */
  ghost predicate Collected(history: map<string, Batch<Entry>>, events: seq<Event>) {
    AllLines(events) && forall n :: Of(events, n) == if n in history then HistoryLines(n, history[n]) else []
  }

  /** The outer loop of History; the processes are visited in any order. */
  method Collect(history: map<string, Batch<Entry>>) returns (events: seq<Event>)
    ensures Collected(history, events)
  {
    hide HistoryLines;
    events := [];
    var left := history.Keys;
    while left != {}
      invariant left <= history.Keys && AllLines(events)
      invariant forall n :: Of(events, n) == if n in history && n !in left then HistoryLines(n, history[n]) else []
      decreases |left|
    {
      var name :| name in left;
      events := CollectProcess(events, name, history[name]);
      left := left - {name};
    }
  }

  /** The retained logs of every process at attachment time, ordered by timestamp. */
  method History(history: map<string, Batch<Entry>>) returns (events: seq<Event>)
    ensures AllLines(events) && SortedByTime(events)
    ensures exists collected: seq<Event> ::
      Collected(history, collected) && events == StableByTime(collected) && multiset(events) == multiset(collected)
  {
    hide Of, HistoryLines;
    var collected := Collect(history);
    events := StableByTime(collected);
    StableMeaning(collected);
  }

  /** The inner loop of History. */
  method CollectProcess(before: seq<Event>, name: string, batch: Batch<Entry>) returns (events: seq<Event>)
    requires AllLines(before)
    ensures AllLines(events)
    ensures forall n :: Of(events, n) == if n == name then Of(before, n) + HistoryLines(name, batch) else Of(before, n)
  {
    events := before;
    ghost var lines := HistoryLines(name, batch);
    for index := 0 to |batch.entries|
      invariant AllLines(events)
      invariant forall n :: Of(events, n) == if n == name then Of(before, n) + lines[..index] else Of(before, n)
    {
      var line := Line(name, batch.cursor - (|batch.entries| - index - 1), batch.entries[index]);
      assert lines[..index + 1] == lines[..index] + [line];
      AppendLine(events, line, name, lines[..index + 1]);
      events := events + [line];
    }
    assert lines[..|batch.entries|] == lines;
  }

  // ---------- The live stream ----------

  /** What the connection delivers as events: everything before the result. */
  function EventsOf(messages: seq<Message>): seq<Event> {
    if messages == [] || messages[0].Result? then [] else [messages[0].event] + EventsOf(messages[1..])
  }

  /** Client.read: it forwards events until the result arrives. */
  method Read(messages: seq<Message>) returns (events: seq<Event>, finished: bool)
    ensures events == EventsOf(messages)
    ensures finished <==> Result in messages
  {
    events, finished := [], false;
    for i := 0 to |messages|
      invariant !finished && Result !in messages[..i]
      invariant EventsOf(messages) == events + EventsOf(messages[i..])
    {
      match messages[i]
      case Result =>
        finished := true;
        return;
      case Live(event) =>
        assert messages[i..][1..] == messages[i + 1..];
        events := events + [event];
    }
  }

  // ---------- The headless loop ----------

  function CursorOf(cursors: map<string, int>, n: string): int {
    if n in cursors then cursors[n] else 0
  }

  function Max(a: int, b: int): int {
    if a < b then b else a
  }

  /** The loop's state: the cursor it has reached in each process, and what it has printed. */
  datatype Printer = Printer(cursors: map<string, int>, printed: seq<Event>)

  function Recall(p: Printer, e: Event): Printer {
    Printer(p.cursors[e.process := Max(CursorOf(p.cursors, e.process), if e.Line? then e.cursor else 0)], p.printed + [e])
  }

  function Receive(p: Printer, e: Event): Printer {
    if e.Line? && e.cursor != 0 then
      if e.cursor <= CursorOf(p.cursors, e.process) then p
      else Printer(p.cursors[e.process := e.cursor], p.printed + [e])
    else p.(printed := p.printed + [e])
  }

  function Recalled(history: seq<Event>): Printer {
    if history == [] then Printer(map[], []) else Recall(Recalled(history[..|history| - 1]), history[|history| - 1])
  }

  function Received(p: Printer, live: seq<Event>): Printer {
    if live == [] then p else Receive(Received(p, live[..|live| - 1]), live[|live| - 1])
  }

  /** runHeadless: print the history, then the live events it does not contain. */
  method RunHeadless(history: seq<Event>, live: seq<Event>) returns (printed: seq<Event>)
    ensures printed == Received(Recalled(history), live).printed
    ensures Others(printed) == Others(history) + Others(live)
    ensures (forall e :: e in live && e.Line? ==> e.cursor >= 0) ==> printed == history + NewOnes(history, live, |live|)
  {
    var cursors: map<string, int> := map[];
    printed := [];
    for i := 0 to |history|
      invariant Printer(cursors, printed) == Recalled(history[..i])
    {
      var event := history[i];
      assert history[..i + 1][..i] == history[..i];
      printed := printed + [event];
      var known := if event.process in cursors then cursors[event.process] else 0;
      cursors := cursors[event.process := Max(known, if event.Line? then event.cursor else 0)];
    }
    assert history[..|history|] == history;
    for i := 0 to |live|
      invariant Printer(cursors, printed) == Received(Recalled(history), live[..i])
    {
      var event := live[i];
      assert live[..i + 1][..i] == live[..i];
      if event.Line? && event.cursor != 0 {
        if event.process in cursors && event.cursor <= cursors[event.process] { continue; }
        if event.process !in cursors && event.cursor <= 0 { continue; }
        cursors := cursors[event.process := event.cursor];
      }
      printed := printed + [event];
    }
    assert live[..|live|] == live;
    PrintsAllOthers(history, live);
    if forall e :: e in live && e.Line? ==> e.cursor >= 0 { PrintsWhatIsNew(history, live); }
  }

  // ---------- What is printed ----------

  /** A live event the loop has to print: not a line, a line without a cursor, or a line beyond
      every line of its process in the history and in what came before. */
  predicate IsNew(history: seq<Event>, live: seq<Event>, i: nat)
    requires i < |live|
  {
    var e := live[i];
    !e.Line? || e.cursor == 0 || (e.cursor > 0 && Beyond(history, e) && Beyond(live[..i], e))
  }

  predicate Beyond(events: seq<Event>, e: Event)
    requires e.Line?
  {
    forall x :: x in events && x.Line? && x.process == e.process ==> x.cursor < e.cursor
  }

  /** The new ones among the first k live events, in order. */
  function NewOnes(history: seq<Event>, live: seq<Event>, k: nat): seq<Event>
    requires k <= |live|
  {
    if k == 0 then [] else NewOnes(history, live, k - 1) + if IsNew(history, live, k - 1) then [live[k - 1]] else []
  }

  /** The largest cursor of a process among some events, zero if there is none. */
  predicate IsTop(events: seq<Event>, n: string, top: int) {
    && top >= 0
    && (forall x :: x in events && x.Line? && x.process == n ==> x.cursor <= top)
    && (top > 0 ==> exists x :: x in events && x.Line? && x.process == n && x.cursor == top)
  }

  lemma TopSnoc(events: seq<Event>, e: Event, n: string, top: int)
    requires IsTop(events, n, top)
    ensures IsTop(events + [e], n, if e.Line? && e.process == n then Max(top, e.cursor) else top)
  {
    var top' := if e.Line? && e.process == n then Max(top, e.cursor) else top;
    if top' > 0 {
      if top' > top { assert e in events + [e]; }
      else {
        var x :| x in events && x.Line? && x.process == n && x.cursor == top;
        assert x in events + [e];
      }
    }
  }

  lemma {:induction false} RecalledTop(history: seq<Event>, n: string)
    ensures IsTop(history, n, CursorOf(Recalled(history).cursors, n))
    decreases |history|
  {
    if history != [] {
      var front, e := history[..|history| - 1], history[|history| - 1];
      RecalledTop(front, n);
      TopSnoc(front, e, n, CursorOf(Recalled(front).cursors, n));
      assert history == front + [e];
    }
  }

  lemma {:induction false} RecalledPrinted(history: seq<Event>)
    ensures Recalled(history).printed == history
    decreases |history|
  {
    if history != [] {
      RecalledPrinted(history[..|history| - 1]);
      assert history == history[..|history| - 1] + [history[|history| - 1]];
    }
  }

  lemma TopBeyond(history: seq<Event>, before: seq<Event>, e: Event, top: int)
    requires e.Line? && IsTop(history + before, e.process, top)
    ensures e.cursor > top <==> e.cursor > 0 && Beyond(history, e) && Beyond(before, e)
  {
    if e.cursor > top {
      forall x | x in history && x.Line? && x.process == e.process ensures x.cursor < e.cursor { assert x in history + before; }
      forall x | x in before && x.Line? && x.process == e.process ensures x.cursor < e.cursor { assert x in history + before; }
    } else if top > 0 {
      var x :| x in history + before && x.Line? && x.process == e.process && x.cursor == top;
      assert x in history || x in before;
    }
  }

  lemma ReceivedSnoc(p: Printer, live: seq<Event>, e: Event)
    ensures Received(p, live + [e]) == Receive(Received(p, live), e)
  {
    assert (live + [e])[..|live|] == live;
  }

  /** One live event more, for a loop whose cursors are the largest it has seen. */
  lemma ReceiveNew(history: seq<Event>, live: seq<Event>, k: nat, q: Printer)
    requires k < |live| && (live[k].Line? ==> live[k].cursor >= 0)
    requires forall n :: IsTop(history + live[..k], n, CursorOf(q.cursors, n))
    ensures Receive(q, live[k]).printed == q.printed + if IsNew(history, live, k) then [live[k]] else []
    ensures forall n :: IsTop(history + live[..k + 1], n, CursorOf(Receive(q, live[k]).cursors, n))
  {
    hide IsTop, Beyond;
    var e := live[k];
    assert history + live[..k + 1] == (history + live[..k]) + [e];
    forall n ensures IsTop(history + live[..k + 1], n, CursorOf(Receive(q, e).cursors, n)) {
      TopSnoc(history + live[..k], e, n, CursorOf(q.cursors, n));
      if e.Line? && e.process == n { NotNegative(history + live[..k], n, CursorOf(q.cursors, n)); }
    }
    if e.Line? {
      TopBeyond(history, live[..k], e, CursorOf(q.cursors, e.process));
      NotNegative(history + live[..k], e.process, CursorOf(q.cursors, e.process));
    }
  }

  lemma NotNegative(events: seq<Event>, n: string, top: int)
    requires IsTop(events, n, top)
    ensures top >= 0
  {
  }

  /** The loop's cursor is the largest it has seen, and it has printed what was new. */
  lemma {:induction false} ReceivedNew(history: seq<Event>, live: seq<Event>, k: nat)
    requires k <= |live| && forall e :: e in live && e.Line? ==> e.cursor >= 0
    ensures var p := Received(Recalled(history), live[..k]);
            && p.printed == history + NewOnes(history, live, k)
            && forall n :: IsTop(history + live[..k], n, CursorOf(p.cursors, n))
  {
    hide Received, Receive, Recalled, IsTop, IsNew, CursorOf;
    if k == 0 {
      RecalledPrinted(history);
      assert history + live[..0] == history && live[..0] == [];
      NothingReceived(Recalled(history));
      forall n ensures IsTop(history + live[..0], n, CursorOf(Recalled(history).cursors, n)) { RecalledTop(history, n); }
    } else {
      ReceivedNew(history, live, k - 1);
      assert live[..k] == live[..k - 1] + [live[k - 1]];
      assert live[k - 1] in live;
      ReceivedSnoc(Recalled(history), live[..k - 1], live[k - 1]);
      ReceiveNew(history, live, k - 1, Received(Recalled(history), live[..k - 1]));
    }
  }

  lemma NothingReceived(p: Printer)
    ensures Received(p, []) == p
  {
  }

  /** The headless loop prints the history and then, in order, exactly what is new. */
  lemma PrintsWhatIsNew(history: seq<Event>, live: seq<Event>)
    requires forall e :: e in live && e.Line? ==> e.cursor >= 0
    ensures Received(Recalled(history), live).printed == history + NewOnes(history, live, |live|)
  {
    assert live[..|live|] == live;
    ReceivedNew(history, live, |live|);
  }

  /** The events that are no log lines: starts, exits, restarts, errors. */
  function Others(events: seq<Event>): seq<Event> {
    if events == [] then []
    else Others(events[..|events| - 1]) + if events[|events| - 1].Line? then [] else [events[|events| - 1]]
  }

  lemma OthersSnoc(events: seq<Event>, e: Event)
    ensures Others(events + [e]) == Others(events) + if e.Line? then [] else [e]
  {
    assert (events + [e])[..|events|] == events;
  }

  lemma {:induction false} ReceivedOthers(p: Printer, live: seq<Event>)
    ensures Others(Received(p, live).printed) == Others(p.printed) + Others(live)
    decreases |live|
  {
    if live != [] {
      var front, e := live[..|live| - 1], live[|live| - 1];
      ReceivedOthers(p, front);
      OthersSnoc(Received(p, front).printed, e);
    }
  }

  /** Whatever is not a log line is printed once and in order. */
  lemma PrintsAllOthers(history: seq<Event>, live: seq<Event>)
    ensures Others(Received(Recalled(history), live).printed) == Others(history) + Others(live)
  {
    RecalledPrinted(history);
    ReceivedOthers(Recalled(history), live);
  }

  lemma ReceiveUnnumbered(p: Printer, e: Event, n: string)
    requires e.Line? && e.process == n ==> e.cursor == 0
    ensures Of(Receive(p, e).printed, n) == Of(p.printed, n) + if e.Line? && e.process == n then [e] else []
  {
    hide Of;
    OfSnoc(p.printed, e, n);
  }

  /** So is every line of a process whose lines carry no cursor. */
  lemma {:induction false} PrintsUnnumbered(p: Printer, live: seq<Event>, n: string)
    requires forall e :: e in live && e.Line? && e.process == n ==> e.cursor == 0
    ensures Of(Received(p, live).printed, n) == Of(p.printed, n) + Of(live, n)
    decreases |live|
  {
    hide Of, Receive, Received;
    if live != [] {
      var front, e := live[..|live| - 1], live[|live| - 1];
      assert live == front + [e];
      PrintsUnnumbered(p, front, n);
      ReceivedSnoc(p, front, e);
      ReceiveUnnumbered(Received(p, front), e, n);
      OfSnoc(front, e, n);
    } else {
      NothingReceived(p);
      NothingOf(n);
    }
  }

  lemma NothingOf(n: string)
    ensures Of([], n) == []
  {
  }
}
