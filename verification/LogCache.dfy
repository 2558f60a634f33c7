/** The log cache of internal/tui/model.go: how the pane of the selected process is
    kept equal to the supervisor's retained window by log events, incremental reads
    and full reads. */
module LogCache {
  import opened LogRing
  import opened LogView

  /** The supervisor's log buffer of one process, by its meaning. */
  datatype Log = Log(limit: int, history: seq<Entry>)

  type Logs = map<string, Log>

  function LogsSince(logs: Logs, name: string, cursor: nat): Batch<Entry> {
    if name !in logs then Batch([], 0, 0, cursor != 0)
    else Since(logs[name].limit, logs[name].history, cursor)
  }

  /** A log event as the session delivers it. */
  datatype LogEvent = LogEvent(process: string, entry: Entry, cursor: nat, retained: nat, stateValid: bool)

  /** The cached part of the model; process is the one the cache was last reset for. */
  datatype Cache = Cache(process: string, cursor: nat, syncNeeded: bool, shown: seq<Entry>)

  // ---------- What the handlers compute ----------

  function DropFront(shown: seq<Entry>, count: int): seq<Entry> {
    shown[Min(Max(count, 0), |shown|)..]
  }

  function AfterBatch(shown: seq<Entry>, batch: Batch<Entry>): seq<Entry> {
    var kept := if batch.reset then [] else shown;
    var existing := Max(batch.retained - |batch.entries|, 0);
    var all := DropFront(kept, |kept| - existing) + batch.entries;
    DropFront(all, |all| - batch.retained)
  }

  function AfterReset(cache: Cache, selected: string): Cache {
    if selected != cache.process then Cache(selected, 0, true, []) else cache
  }

  /** The batch a synchronisation applies: an incremental read, or a full one when the
      incremental one does not fit. The buffers may have grown between the two. */
  function SyncBatch(cache: Cache, selected: string, now: Logs, later: Logs): Batch<Entry> {
    var batch := LogsSince(now, selected, cache.cursor);
    if !batch.reset && batch.retained - |batch.entries| > |cache.shown| then LogsSince(later, selected, 0) else batch
  }

  function Applied(shown: seq<Entry>, name: string, batch: Batch<Entry>): Cache {
    Cache(name, batch.cursor, false, AfterBatch(shown, batch))
  }

  function AfterSync(cache: Cache, selected: string, now: Logs, later: Logs): Cache {
    var current := AfterReset(cache, selected);
    if selected == "" || !current.syncNeeded then current
    else Applied(current.shown, selected, SyncBatch(current, selected, now, later))
  }

  function Resync(cache: Cache, selected: string, now: Logs, later: Logs): Cache {
    AfterSync(cache.(syncNeeded := true), selected, now, later)
  }

  /** Makes room for one more entry and adds it. */
  function AfterAppend(shown: seq<Entry>, entry: Entry, retained: nat): seq<Entry> {
    DropFront(shown, |shown| - (retained - 1)) + [entry]
  }

  function AfterEvent(cache: Cache, selected: string, event: LogEvent, now: Logs, later: Logs): Cache {
    if event.process != selected then cache
    else if !event.stateValid then Resync(cache, selected, now, later)
    else if event.cursor < cache.cursor then cache
    else if event.cursor == cache.cursor then
      if event.retained != |cache.shown| then Resync(cache, selected, now, later) else cache
    else if event.cursor != cache.cursor + 1 then Resync(cache, selected, now, later)
    else if event.retained == 0 then Cache(cache.process, event.cursor, false, [])
    else if event.retained - 1 > |cache.shown| then Resync(cache, selected, now, later)
    else Cache(cache.process, event.cursor, false, AfterAppend(cache.shown, event.entry, event.retained))
  }

  lemma DropsNothing(shown: seq<Entry>, count: int)
    ensures DropFront(shown, count) == shown[Min(Max(count, 0), |shown|)..]
    ensures count <= 0 ==> DropFront(shown, count) == shown
  {
  }

  // ---------- The model ----------

  class Model {
    const pane: Pane
    var selected: string
    var logProcess: string
    var logCursor: nat
    var logSyncNeeded: bool

    ghost predicate Valid()
      reads this, pane
    {
      pane.Valid()
    }

    ghost function View(): Cache
      reads this, pane
    {
      Cache(logProcess, logCursor, logSyncNeeded, pane.shown)
    }

    constructor (rules: TextRules, wrap: bool, width: nat)
      ensures Valid() && fresh(pane)
      ensures selected == "" && View() == Cache("", 0, false, [])
    {
      pane := new Pane(rules, wrap, width);
      selected, logProcess, logCursor, logSyncNeeded := "", "", 0, false;
    }

    method ApplyLogBatch(batch: Batch<Entry>)
      requires Valid()
      modifies `logCursor, pane
      ensures Valid()
      ensures pane.shown == AfterBatch(old(pane.shown), batch) && logCursor == batch.cursor
    {
      hide Pane.Valid, DropFront;
      if batch.reset {
        pane.Clear();
      }
      var existing := batch.retained - |batch.entries|;
      if existing < 0 {
        existing := 0;
      }
      Trim(existing);
      AppendAll(batch.entries);
      Trim(batch.retained);
      logCursor := batch.cursor;
    }

    /** Drops what exceeds the number of lines to keep. */
    method Trim(keep: nat)
      requires pane.Valid()
      modifies pane
      ensures pane.Valid() && pane.shown == DropFront(old(pane.shown), |old(pane.shown)| - keep)
    {
      hide *;
      pane.Length();
      var drop := |pane.lines| - keep;
      DropsNothing(pane.shown, drop);
      if drop > 0 {
        pane.Drop(drop);
      }
    }

    method AppendAll(entries: seq<Entry>)
      requires pane.Valid()
      modifies pane
      ensures pane.Valid() && pane.shown == old(pane.shown) + entries
    {
      hide *;
      var index := 0;
      assert pane.shown == old(pane.shown) + entries[..0];
      while index < |entries|
        invariant 0 <= index <= |entries|
        invariant pane.Valid() && pane.shown == old(pane.shown) + entries[..index]
      {
        assert entries[..index + 1] == entries[..index] + [entries[index]];
        pane.Append(entries[index]);
        index := index + 1;
      }
      assert entries[..index] == entries;
    }

    method ResetLogCache(process: string)
      requires Valid()
      modifies `logProcess, `logCursor, `logSyncNeeded, pane
      ensures Valid() && View() == Cache(process, 0, true, [])
    {
      hide Pane.Valid;
      logProcess, logCursor, logSyncNeeded := process, 0, true;
      pane.Clear();
    }

    method SyncLogCache(now: Logs, later: Logs)
      requires Valid()
      modifies `logProcess, `logCursor, `logSyncNeeded, pane
      ensures Valid() && View() == AfterSync(old(View()), selected, now, later)
    {
      hide Pane.Valid, LogsSince, AfterBatch;
      if selected != logProcess {
        ResetLogCache(selected);
      }
      if selected == "" || !logSyncNeeded {
        return;
      }
      var batch := LogsSince(now, selected, logCursor);
      var expectedExisting := batch.retained - |batch.entries|;
      pane.Length();
      if !batch.reset && expectedExisting > |pane.lines| {
        batch := LogsSince(later, selected, 0);
      }
      ApplyLogBatch(batch);
      logSyncNeeded := false;
    }

    method MarkAndSync(now: Logs, later: Logs)
      requires Valid()
      modifies `logProcess, `logCursor, `logSyncNeeded, pane
      ensures Valid() && View() == Resync(old(View()), selected, now, later)
    {
      hide Pane.Valid, AfterSync;
      logSyncNeeded := true;
      SyncLogCache(now, later);
    }

    method ApplyLogEvent(event: LogEvent, now: Logs, later: Logs)
      requires Valid()
      modifies `logProcess, `logCursor, `logSyncNeeded, pane
      ensures Valid() && View() == AfterEvent(old(View()), selected, event, now, later)
    {
      hide Pane.Valid, Resync, AfterAppend;
      pane.Length();
      if event.process != selected {
        return;
      }
      if !event.stateValid {
        MarkAndSync(now, later);
        return;
      }
      if event.cursor < logCursor {
        return;
      }
      if event.cursor == logCursor {
        if event.retained != |pane.lines| {
          MarkAndSync(now, later);
        }
        return;
      }
      if event.cursor != logCursor + 1 {
        MarkAndSync(now, later);
        return;
      }
      if event.retained == 0 {
        pane.Clear();
        logCursor, logSyncNeeded := event.cursor, false;
        return;
      }
      var expectedExisting := event.retained - 1;
      if expectedExisting > |pane.lines| {
        MarkAndSync(now, later);
        return;
      }
      AppendEvent(event, expectedExisting);
      logCursor, logSyncNeeded := event.cursor, false;
    }

    method AppendEvent(event: LogEvent, expectedExisting: nat)
      requires Valid() && expectedExisting == event.retained - 1
      modifies pane
      ensures Valid()
      ensures pane.shown == AfterAppend(old(pane.shown), event.entry, event.retained)
    {
      hide Pane.Valid;
      Trim(expectedExisting);
      pane.Append(event.entry);
      pane.Length();
      if |pane.lines| - event.retained > 0 {
        // The second trim is unreachable: room was made before the append.
        assert false;
      }
    }

    method SelectProcess(name: string, now: Logs, later: Logs)
      requires Valid()
      modifies this, pane
      ensures Valid() && selected == name
      ensures View() == if name == old(selected) then old(View()) else AfterSync(old(View()), name, now, later)
    {
      if name == selected {
        return;
      }
      hide Pane.Valid, AfterSync;
      selected := name;
      SyncLogCache(now, later);
    }
  }

  // ---------- The cache against the buffers ----------

  /** The cache shows what the buffer retained when its cursor was current. */
  ghost predicate Tracks(log: Log, cursor: nat, shown: seq<Entry>) {
    cursor <= Cursor(log.limit, log.history) && shown == Window(log.limit, log.history[..cursor])
  }

  ghost predicate Grows(log: Log, log': Log) {
    log'.limit == log.limit && log.history <= log'.history
  }

  ghost predicate AllGrow(logs: Logs, logs': Logs) {
    logs'.Keys == logs.Keys && forall n :: n in logs ==> Grows(logs[n], logs'[n])
  }

  lemma TracksGrowth(log: Log, log': Log, cursor: nat, shown: seq<Entry>)
    requires Grows(log, log') && Tracks(log, cursor, shown)
    ensures Tracks(log', cursor, shown)
  {
    assert log'.history[..cursor] == log.history[..cursor];
  }

  /** An incremental read brings a tracking cache up to date, and always fits. */
  lemma ReadCatchesUp(log: Log, cursor: nat, shown: seq<Entry>)
    requires Tracks(log, cursor, shown)
    ensures var batch := Since(log.limit, log.history, cursor);
            && (!batch.reset ==> batch.retained - |batch.entries| <= |shown|)
            && batch.cursor == Cursor(log.limit, log.history)
            && AfterBatch(shown, batch) == Window(log.limit, log.history)
  {
    var h, limit := log.history, log.limit;
    var batch := Since(limit, h, cursor);
    if batch.reset || limit <= 0 {
    } else {
      assert |shown| == if cursor <= limit then cursor else limit;
      var existing := batch.retained - |batch.entries|;
      assert existing <= |shown|;
      assert shown[|shown| - existing..] == h[cursor - existing..cursor];
      assert h[cursor - existing..cursor] + h[cursor..] == h[cursor - existing..];
    }
  }

  /** One entry more keeps the oldest or drops it. */
  lemma AppendCases(shown: seq<Entry>, entry: Entry)
    ensures AfterAppend(shown, entry, |shown| + 1) == shown + [entry]
    ensures shown != [] ==> AfterAppend(shown, entry, |shown|) == shown[1..] + [entry]
  {
  }

  /** So a synchronisation asks for what came after the cursor, and never has to ask again. */
  lemma SyncReadsOnce(cache: Cache, selected: string, now: Logs, later: Logs)
    requires selected in now && Tracks(now[selected], cache.cursor, cache.shown)
    ensures SyncBatch(cache, selected, now, later) == Since(now[selected].limit, now[selected].history, cache.cursor)
  {
    hide Since, AfterBatch, Window;
    ReadCatchesUp(now[selected], cache.cursor, cache.shown);
  }

  /** The next event in line appends to a tracking cache without any read. */
  lemma EventAppends(log: Log, cursor: nat, shown: seq<Entry>)
    requires Tracks(log, cursor, shown) && 0 < log.limit && cursor < |log.history|
    ensures var retained := Retained(log.limit, log.history[..cursor + 1]);
            && 0 < retained <= |shown| + 1
            && Tracks(log, cursor + 1, AfterAppend(shown, log.history[cursor], retained))
  {
    var was, item := log.history[..cursor], log.history[cursor];
    assert log.history[..cursor + 1] == was + [item];
    assert |shown| == Retained(log.limit, was);
    WindowSnoc(log.limit, was, item);
    AppendCases(shown, item);
    hide Window, AfterAppend;
  }

  // ---------- Runs ----------

  /** The buffers, how many log events of each process the model has been handed, the
      selection and the cache. Processes have non-empty names; the empty selection
      stands for the time before the first snapshot. */
  datatype Mirror = Mirror(logs: Logs, handed: map<string, nat>, selected: string, cache: Cache)

  /** The event published for the k-th entry of a log. */
  function EventAt(name: string, log: Log, k: nat): LogEvent
    requires 0 < k <= |log.history|
  {
    var prefix := log.history[..k];
    LogEvent(name, log.history[k - 1], Cursor(log.limit, prefix), Retained(log.limit, prefix), true)
  }

  datatype Step =
    | Output(name: string, entry: Entry)
    | Handle(name: string, later: Logs)
    | HandleUnknown(name: string, entry: Entry, later: Logs)
    | Select(name: string, later: Logs)
    | FirstSnapshot(name: string)
    | Synchronise(later: Logs)

  /** Events of a process arrive in order and not before their entry was added; while
      one is handled, or a selection synchronises, the buffers may grow. A new model
      synchronises once after its first snapshot. */
  ghost predicate Next(m: Mirror, m': Mirror, step: Step) {
    match step
    case Output(name, entry) =>
      && name in m.logs
      && m' == m.(logs := m.logs[name := Log(m.logs[name].limit, m.logs[name].history + [entry])])
    case Handle(name, later) =>
      && name in m.logs && name in m.handed && m.handed[name] < |m.logs[name].history|
      && AllGrow(m.logs, later)
      && m' == m.(logs := later, handed := m.handed[name := m.handed[name] + 1],
                  cache := AfterEvent(m.cache, m.selected, EventAt(name, m.logs[name], m.handed[name] + 1), m.logs, later))
    case HandleUnknown(name, entry, later) =>
      && AllGrow(m.logs, later)
      && m' == m.(logs := later,
                  cache := AfterEvent(m.cache, m.selected, LogEvent(name, entry, 0, 0, false), m.logs, later))
    case Select(name, later) =>
      && name in m.logs && m.selected != "" && AllGrow(m.logs, later)
      && m' == if name == m.selected then m
               else m.(logs := later, selected := name, cache := AfterSync(m.cache, name, m.logs, later))
    case FirstSnapshot(name) =>
      && m.selected == "" && name in m.logs
      && m' == m.(selected := name)
    case Synchronise(later) =>
      && AllGrow(m.logs, later)
      && m' == m.(logs := later, cache := AfterSync(m.cache, m.selected, m.logs, later))
  }

  /** The cache shows the retained window as of its cursor, and once synchronised for
      the selected process it is never behind the events handed over. */
  ghost predicate Faithful(m: Mirror) {
    && "" !in m.logs
    && m.handed.Keys == m.logs.Keys
    && (forall n :: n in m.logs ==> m.handed[n] <= |m.logs[n].history|)
    && (if m.selected == "" then m.cache.cursor == 0 && m.cache.shown == [] && m.cache.process == ""
        else m.selected in m.logs && Tracks(m.logs[m.selected], m.cache.cursor, m.cache.shown))
    && (m.cache.process == m.selected || m.cache.process == "")
    && (m.cache.process == m.selected != "" && !m.cache.syncNeeded && m.logs[m.selected].limit > 0 ==>
          m.handed[m.selected] <= m.cache.cursor)
  }

  ghost predicate Start(m: Mirror) {
    && "" !in m.logs && m.handed.Keys == m.logs.Keys && m.selected == ""
    && (forall n :: n in m.logs ==> m.handed[n] <= |m.logs[n].history|)
    && m.cache == Cache("", 0, false, [])
  }

  /** Synchronising the selected process leaves the cache equal to its window. */
  lemma SyncIsCurrent(cache: Cache, selected: string, now: Logs, later: Logs)
    requires selected in now && selected != "" && AllGrow(now, later)
    requires cache.process == selected ==> cache.syncNeeded && Tracks(now[selected], cache.cursor, cache.shown)
    ensures var c := AfterSync(cache, selected, now, later);
            && c.process == selected && !c.syncNeeded
            && c.cursor == Cursor(now[selected].limit, now[selected].history)
            && c.shown == Window(now[selected].limit, now[selected].history)
            && Tracks(now[selected], c.cursor, c.shown)
  {
    var log := now[selected];
    var current := AfterReset(cache, selected);
    EmptyTracks(log);
    hide Since, AfterBatch, Window, Tracks, Cursor;
    ReadCatchesUp(log, current.cursor, current.shown);
    CurrentTracks(log);
  }

  lemma EmptyTracks(log: Log)
    ensures Tracks(log, 0, [])
  {
    assert Window(log.limit, log.history[..0]) == [];
  }

  lemma CurrentTracks(log: Log)
    ensures Tracks(log, Cursor(log.limit, log.history), Window(log.limit, log.history))
  {
    assert log.history[..|log.history|] == log.history;
    if log.limit <= 0 { assert Window(log.limit, log.history) == [] == Window(log.limit, log.history[..0]); }
  }

  /** A forced read of the selected process, whatever the cache was last reset for. */
  lemma ResyncIsCurrent(cache: Cache, selected: string, now: Logs, later: Logs)
    requires selected in now && selected != "" && AllGrow(now, later)
    requires Tracks(now[selected], cache.cursor, cache.shown)
    ensures var c := Resync(cache, selected, now, later);
            && c.process == selected && !c.syncNeeded
            && c.cursor == Cursor(now[selected].limit, now[selected].history)
            && Tracks(now[selected], c.cursor, c.shown)
  {
    SyncIsCurrent(cache.(syncNeeded := true), selected, now, later);
  }

  /** Handling an event of the selected process: nothing is lost, nothing repeated. */
  lemma HandleCatchesUp(cache: Cache, name: string, log: Log, k: nat, now: Logs, later: Logs)
    requires name != "" && name in now && now[name] == log && AllGrow(now, later)
    requires 0 < k <= |log.history| && Tracks(log, cache.cursor, cache.shown)
    ensures var c := AfterEvent(cache, name, EventAt(name, log, k), now, later);
            && Tracks(log, c.cursor, c.shown)
            && EventAt(name, log, k).cursor <= c.cursor
            && (c.process == cache.process || c.process == name)
  {
    var event := EventAt(name, log, k);
    var prefix := log.history[..k];
    if event.cursor == cache.cursor {
      if log.limit > 0 { assert prefix == log.history[..cache.cursor]; }
    } else if event.cursor == cache.cursor + 1 {
      assert log.limit > 0 && k == cache.cursor + 1;
      EventAppends(log, cache.cursor, cache.shown);
    } else if event.cursor > cache.cursor {
      ResyncIsCurrent(cache, name, now, later);
    }
  }

  /** Events of other processes, and events the cache already shows, change nothing; the next one
      in line is appended without a read. Only an event further ahead makes the cache read. */
  lemma ReadsOnlyWhenBehind(cache: Cache, name: string, log: Log, k: nat, event: LogEvent, now: Logs, later: Logs)
    requires log.limit > 0 && 0 < k <= |log.history| && Tracks(log, cache.cursor, cache.shown)
    ensures event.process != name ==> AfterEvent(cache, name, event, now, later) == cache
    ensures k <= cache.cursor ==> AfterEvent(cache, name, EventAt(name, log, k), now, later) == cache
    ensures k == cache.cursor + 1 ==>
              AfterEvent(cache, name, EventAt(name, log, k), now, later) == Cache(cache.process, k, false, Window(log.limit, log.history[..k]))
    ensures k > cache.cursor + 1 ==>
              AfterEvent(cache, name, EventAt(name, log, k), now, later) == Resync(cache, name, now, later)
  {
    hide Resync, AfterAppend;
    if k == cache.cursor + 1 { EventAppends(log, cache.cursor, cache.shown); }
  }

  lemma OutputKeeps(m: Mirror, m': Mirror, name: string, entry: Entry)
    requires Faithful(m) && Next(m, m', Output(name, entry))
    ensures Faithful(m')
  {
    if m.selected == name {
      TracksGrowth(m.logs[name], m'.logs[name], m.cache.cursor, m.cache.shown);
    }
  }

  lemma HandleKeeps(m: Mirror, m': Mirror, name: string, later: Logs)
    requires Faithful(m) && Next(m, m', Handle(name, later))
    ensures Faithful(m')
    ensures name == m.selected ==> EventAt(name, m.logs[name], m'.handed[name]).cursor <= m'.cache.cursor
  {
    if name == m.selected {
      var log := m.logs[name];
      HandleCatchesUp(m.cache, name, log, m.handed[name] + 1, m.logs, later);
      TracksGrowth(log, later[name], m'.cache.cursor, m'.cache.shown);
    } else if m.selected != "" {
      TracksGrowth(m.logs[m.selected], later[m.selected], m.cache.cursor, m.cache.shown);
    }
  }

  lemma SelectKeeps(m: Mirror, m': Mirror, name: string, later: Logs)
    requires Faithful(m) && Next(m, m', Select(name, later))
    ensures Faithful(m')
  {
    if name != m.selected {
      SyncIsCurrent(m.cache, name, m.logs, later);
      TracksGrowth(m.logs[name], later[name], m'.cache.cursor, m'.cache.shown);
    }
  }

  lemma UnknownKeeps(m: Mirror, m': Mirror, name: string, entry: Entry, later: Logs)
    requires Faithful(m) && Next(m, m', HandleUnknown(name, entry, later))
    ensures Faithful(m')
  {
    if m.selected != "" {
      if name == m.selected {
        ResyncIsCurrent(m.cache, name, m.logs, later);
      }
      TracksGrowth(m.logs[m.selected], later[m.selected], m'.cache.cursor, m'.cache.shown);
    }
  }

  /** The synchronisation of a new model, with or without a process to select. */
  lemma SynchroniseKeeps(m: Mirror, m': Mirror, later: Logs)
    requires Faithful(m) && Next(m, m', Synchronise(later))
    ensures Faithful(m') && m'.cache.process == m'.selected
  {
    if m.selected != "" {
      if m.cache.process != m.selected || m.cache.syncNeeded {
        SyncIsCurrent(m.cache, m.selected, m.logs, later);
      }
      TracksGrowth(m.logs[m.selected], later[m.selected], m'.cache.cursor, m'.cache.shown);
    }
  }

  /** Every step keeps the cache faithful. */
  lemma NextKeeps(m: Mirror, m': Mirror, step: Step)
    requires Faithful(m) && Next(m, m', step)
    ensures Faithful(m')
  {
    match step
    case Output(name, entry) => OutputKeeps(m, m', name, entry);
    case Handle(name, later) => HandleKeeps(m, m', name, later);
    case HandleUnknown(name, entry, later) => UnknownKeeps(m, m', name, entry, later);
    case Select(name, later) => SelectKeeps(m, m', name, later);
    case FirstSnapshot(name) =>
      assert Window(m.logs[name].limit, m.logs[name].history[..0]) == [];
    case Synchronise(later) => SynchroniseKeeps(m, m', later);
  }

  ghost predicate Run(run: seq<Mirror>, steps: seq<Step>) {
    && |run| == |steps| + 1 && Start(run[0])
    && forall i :: 0 <= i < |steps| ==> Next(run[i], run[i + 1], steps[i])
  }

  /** In every state of every run the lines on display are the retained window as of
      the cache cursor. */
  lemma {:induction false} RunIsFaithful(run: seq<Mirror>, steps: seq<Step>, at: nat)
    requires Run(run, steps) && at < |run|
    ensures Faithful(run[at])
  {
    if at > 0 {
      RunIsFaithful(run, steps, at - 1);
      assert Next(run[at - 1], run[at - 1 + 1], steps[at - 1]);
      NextKeeps(run[at - 1], run[at], steps[at - 1]);
    }
  }

  /** The steps of a run are there to be taken: a process may print, its next event may arrive, and
      any process may be selected. */
  lemma EventsGoOn(m: Mirror, name: string, entry: Entry, later: Logs)
    requires name in m.logs && name in m.handed && AllGrow(m.logs, later)
    ensures exists m' :: Next(m, m', Output(name, entry))
    ensures m.handed[name] < |m.logs[name].history| ==> exists m' :: Next(m, m', Handle(name, later))
  {
    hide AfterEvent, AfterSync, AllGrow, EventAt;
    assert Next(m, m.(logs := m.logs[name := Log(m.logs[name].limit, m.logs[name].history + [entry])]), Output(name, entry));
    if m.handed[name] < |m.logs[name].history| {
      var m' := m.(logs := later, handed := m.handed[name := m.handed[name] + 1],
                   cache := AfterEvent(m.cache, m.selected, EventAt(name, m.logs[name], m.handed[name] + 1), m.logs, later));
      assert Next(m, m', Handle(name, later));
    }
  }

  lemma SelectionsGoOn(m: Mirror, name: string, later: Logs)
    requires name in m.logs && AllGrow(m.logs, later)
    ensures m.selected == "" ==> exists m' :: Next(m, m', FirstSnapshot(name))
    ensures m.selected != "" ==> exists m' :: Next(m, m', Select(name, later))
    ensures exists m' :: Next(m, m', Synchronise(later))
  {
    hide AfterEvent, AfterSync, AllGrow, EventAt;
    assert Next(m, m.(logs := later, cache := AfterSync(m.cache, m.selected, m.logs, later)), Synchronise(later));
    if m.selected == "" {
      assert Next(m, m.(selected := name), FirstSnapshot(name));
    } else {
      var m' := if name == m.selected then m else m.(logs := later, selected := name, cache := AfterSync(m.cache, name, m.logs, later));
      assert Next(m, m', Select(name, later));
    }
  }
}
