# Process Deck: verified model of the supervisor, its logs and its session protocol

Process Deck starts a set of commands in dependency order, restarts and stops them on
request, keeps their output in bounded buffers and lets one terminal client at a time
attach to the worker that owns them. This project models the parts of it that tests
cannot settle and proves what they keep: the supervisor's lifecycle under every
interleaving of its two locks, the graph algorithms it relies on, the line splitter, the
log buffer with its incremental mirror and scroll index, and the attach and publish
protocol with the client that drops what it already has.

`dafny verify dfyconfig.toml` checks everything.

## How it is built

- `DependencyGraph.dfy`, `StopOrder.dfy`: validation by three-colour depth-first search,
  startup layers, reverse and forward orders, and the closure a stop covers. The loops of
  the source are loops here.
- `Lifecycle.dfy`: the record the supervisor keeps of each process and what every critical
  section of the inner lock does to it, as functions. `SupervisorSections.dfy` is the
  supervisor as an object whose methods update its fields section by section; each method
  is proved equal to the section function.
- `SupervisorMachine.dfy`: the supervisor as a step machine. One actor at a time holds the
  operations lock (Run's initial start, StartProcess, StopProcess, RestartProcess, StopAll
  or a fired backoff timer) with a program counter; every launched run has a waiter that
  also forwards its output. Each critical section, each event sent, each channel operation
  that can block, each exit, timer, failure and cancellation is one step.
- `SupervisorUnit.dfy` states what holds of one process between any two sections and proves
  it section by section; `SupervisorInvariant.dfy` lifts that to every step of the machine;
  `SupervisorEffects.dfy` reads off what a step does to a record and its waiters. On these
  rest `SupervisorDependencies.dfy`, `SupervisorStops.dfy`, `SupervisorCompletion.dfy`,
  `SupervisorRestart.dfy` and `SupervisorEvents.dfy`: what never happens.
- What must happen: `SupervisorDecisions.dfy` gives every choice its reason, in terms of
  recorded facts; `SupervisorAttempts.dfy` follows each start, restart and stop to its result;
  `SupervisorOutcomes.dfy` says what states, codes, counters and the end of Run mean;
  `SupervisorAnnounced.dfy` what each step announces; and `SupervisorProgress.dfy` that nothing
  is ever stuck. `SupervisorGivenUp.dfy` is a complete run in which completion is missed.
- `LogRing.dfy`, `LogCache.dfy`, `LogView.dfy`: the circular buffer, the cache that mirrors
  it from events and deltas, and the virtual-scroll index on top of the cache.
- `Utf8.dfy`, `LineSplitter.dfy`: the bounded line splitter over arbitrary reads.
- `AttachProtocol.dfy`, `AttachInvariant.dfy`: the session server as a step machine, and
  `AttachSections.dfy` the same server as an object whose methods are proved to be those
  steps. `AttachProgress.dfy` gives its choices their reasons and shows that it has no dead
  ends. `Headless.dfy`, `ExactlyOnce.dfy`: the client's history, its reader and the headless
  loop, and what the loop prints. `Composition.dfy` joins supervisor and server into one
  worker process: each of its runs is a run of the attach protocol, so a client's output is
  followed from the command that printed a line to the terminal.

A generation identifies a run: a runner, its restart token and its finished channel carry
the generation they were made in. Closing a channel twice is recorded as a panic, and the
invariants show that it does not happen. Inside proofs, `hide` keeps definitions out of
the way; it hides nothing from a reader and assumes nothing.

Where the code and its documentation differ, the model follows the code. Two results are
worth knowing:

- A valid line is not always recorded as its greedy split. Read through the 64 KiB buffer it
  gets one empty record too many exactly when it ends in a carriage return, its last record
  is exactly full, and its length is a multiple of the buffer
  (`LineSplitter.BufferedRecords`; `LineSplitter.ReadShows` is such a text). Two such readings
  of one text still always agree (`LineSplitter.BufferedAgree`).
- Idle misses completion exactly when the initial start returned early, because Run was
  cancelled, with everything settled and not yet noticed, and no stop has ended since
  (`SupervisorCompletion.NoLostCompletion`). That happens only when a stop was issued before
  Run was called (`SupervisorCompletion.MissedOnlyAfterStop`), and then it can
  (`SupervisorGivenUp.CompletionCanBeMissed`).

## Model

| member | source | states |
|---|---|---|
| DependencyGraph.ValidateGraph | internal/supervisor/graph.go:8-41 | accepts exactly the graphs that are closed, duplicate-free, self-loop-free and acyclic; an error names a real self-dependency, unknown or repeated dependency, or cycle |
| DependencyGraph.CheckDependencies | internal/supervisor/graph.go:15-29 | the per-list checks accept exactly closed, self-loop-free, duplicate-free graphs and report a true offence; a name reported as a duplicate is the one listed twice |
| DependencyGraph.VisitGraph | internal/supervisor/graph.go:109-132 | a returned cycle is a dependency cycle; otherwise grey is exactly the stack, black exactly the finished, and finishing order is topological |
| DependencyGraph.FindOnStack | internal/supervisor/graph.go:121-127 | a grey process is found on the stack, at its first occurrence |
| DependencyGraph.TopologicalAcyclic | internal/supervisor/graph.go:31-38 | a topological order of all processes excludes every cycle |
| DependencyGraph.SortedKeys | internal/supervisor/graph.go:143-150 | every process once, ascending |
| DependencyGraph.DependenciesDone | internal/supervisor/graph.go:134-141 | true exactly when every listed dependency is done |
| DependencyGraph.StartupLayers | internal/supervisor/graph.go:43-71 | succeeds exactly on valid graphs, terminates without the unresolved error, places every process, and each layer directly above its members' highest dependencies |
| DependencyGraph.SomeReady | internal/supervisor/graph.go:61-63 | while processes are left over, one of them has all its dependencies done |
| DependencyGraph.LayerIsLongestChain | internal/supervisor/graph.go:51-70 | a process's layer index is the length of its longest dependency chain |
| DependencyGraph.LayersDisjoint | internal/supervisor/graph.go:51-70 | no process is in two layers |
| DependencyGraph.FlattenLayers | internal/supervisor/supervisor.go:438-457 | the order of the initial start lists every process once, dependencies first |
| DependencyGraph.ReverseDependencyOrder | internal/supervisor/graph.go:73-87 | every process once, dependents before their dependencies, exactly on valid graphs |
| DependencyGraph.DependentsOf | internal/supervisor/graph.go:89-101 | exactly the direct dependents, each once, ascending |
| StopOrder.Select | internal/supervisor/supervisor.go:305-316 | the recursive closure terminates and adds exactly what depends on the name |
| StopOrder.FilterInPlace | internal/supervisor/supervisor.go:321-327 | the filter over the shared slice keeps exactly the selected entries in order |
| StopOrder.FilteredMeaning | internal/supervisor/supervisor.go:321-327 | filtering keeps order, distinctness and exactly the selected members |
| StopOrder.ComputeStopOrder | internal/supervisor/supervisor.go:301-328 | exactly the process and its transitive dependents, each once, dependents first; unknown names and invalid graphs are refused |
| StopOrder.StopOrderClosed | internal/supervisor/supervisor.go:301-328 | a stop order contains every dependent of its members |
| SupervisorSections.Supervisor.New | internal/supervisor/supervisor.go:105-130 | a supervisor is made exactly for valid graphs, with every process pending |
| SupervisorSections.Supervisor.CheckDoneLocked | internal/supervisor/supervisor.go:754-764 | becomes idle and closes its channel exactly when every process is settled, whatever order they are looked at |
| SupervisorSections.Supervisor.DependenciesReadyLocked | internal/supervisor/supervisor.go:660-668 | true exactly when every dependency has reached running and is not skipped |
| SupervisorSections.Supervisor.MarkStop | internal/supervisor/supervisor.go:333-347 | marks every process of the order and reports exactly those that were waiting without a runner, in order |
| SupervisorSections.Supervisor.TurnTo | internal/supervisor/supervisor.go:351-361 | a process with a runner becomes stopping; its runner and channel are read in the same section |
| SupervisorSections.Supervisor.ReadResume | internal/supervisor/supervisor.go:261-269 | the named process and every active process of the order |
| SupervisorSections.Supervisor.AdmitManual | internal/supervisor/supervisor.go:208-225 | admits exactly an inactive process with ready dependencies and withdraws its reservation; otherwise nothing changes |
| SupervisorSections.Supervisor.BeginStart | internal/supervisor/supervisor.go:470-498 | refuses when stopping or cancelled; otherwise a new generation, busy again, with a runner only if the specification resolves |
| SupervisorSections.Supervisor.FinishRun | internal/supervisor/supervisor.go:541-594 | the whole exit section: stale return, final state, failure flag, restart decision, events and completion |
| SupervisorSections.Supervisor.EndRun | internal/supervisor/supervisor.go:547-593 | the record after an exit, with or without a reservation, and its events in order |
| SupervisorSections.Supervisor.MarkStartFailed | internal/supervisor/supervisor.go:689-717 | failed without runner or reservation, the orphaned channel closed, completion checked |
| SupervisorUnit.MarkKeeps | internal/supervisor/supervisor.go:335-345 | marking a stop keeps the unit invariant of every process |
| SupervisorUnit.SkipKeeps | internal/supervisor/supervisor.go:670-687 | skipping a process whose turn it is in the initial start keeps the unit invariant |
| SupervisorUnit.AdmitKeeps | internal/supervisor/supervisor.go:208-225 | admitting a manual start leaves no runner, no reservation, and the right channel to wait for |
| SupervisorUnit.WaitKeeps | internal/supervisor/supervisor.go:226-229 | startProcess is entered with the previous exit published |
| SupervisorUnit.LaunchKeeps | internal/supervisor/supervisor.go:475-497 | a launch makes a fresh generation that no waiter, token or channel has |
| SupervisorUnit.CommitKeeps | internal/supervisor/supervisor.go:505-522 | a started command keeps the unit invariant until its waiter takes over |
| SupervisorUnit.FailKeeps | internal/supervisor/supervisor.go:689-702 | a failed start closes an open channel once and leaves no reservation behind |
| SupervisorUnit.TimerTakeKeeps | internal/supervisor/supervisor.go:605-615 | a fired timer that is still valid is the current generation's and enters startProcess with no runner |
| SupervisorUnit.ExitKeeps | internal/supervisor/supervisor.go:541-594 | an exit belongs to the current run and leaves its channel open until the exit is published |
| SupervisorUnit.CloseKeeps | internal/supervisor/supervisor.go:576-596 | the waiter closes its own, still open channel |
| SupervisorInvariant.NextKeeps | internal/supervisor/supervisor.go:137-812 | every step of every actor keeps the invariant of all processes, of the lock holder's program and of the channels |
| SupervisorInvariant.RunKeeps | internal/supervisor/supervisor.go:137-812 | it holds at every point of every run |
| SupervisorInvariant.StaleNever | internal/supervisor/supervisor.go:543-546 | the stale-generation return of waitProcess is unreachable |
| SupervisorInvariant.SingleLiveRun | internal/supervisor/supervisor.go:465-551 | at most one live run per process, the current one; startProcess is entered only with no runner and the previous channel closed or never made; no channel is closed twice |
| SupervisorEffects.Effects | internal/supervisor/supervisor.go:197-717 | what each step does to each record and its waiters, and the only ways in which the lock holder comes to start a process |
| SupervisorDependencies.QuietKeeps | internal/supervisor/supervisor.go:203-225 | a quiet process whose dependencies are not ready stays quiet under every step |
| SupervisorDependencies.HeldKeeps | internal/supervisor/supervisor.go:332-345 | only bringing a stopped process up again ends its hold on its dependents |
| SupervisorDependencies.MarkHolds | internal/supervisor/supervisor.go:330-347 | a stop silences everything it covers before it waits for the first command |
| SupervisorDependencies.RunIsSafe | internal/supervisor/supervisor.go:301-345 | at every point of every run a stop-requested process holds back all its transitive dependents |
| SupervisorDependencies.DependencySafety | internal/supervisor/supervisor.go:332-345 | from a stop request until the process is up again, every transitive dependent is down, has no restart pending, is not being started and has at most a command that was itself asked to stop |
| SupervisorDependencies.ReadyStays | internal/supervisor/supervisor.go:660-668 | dependencies that are up stay up while the lock holder is not stopping, skipping or admitting one of them |
| SupervisorDependencies.LaunchWaitsForDependencies | internal/supervisor/supervisor.go:218-221 | whenever the initial start, a manual start or a manual restart launches a process, every dependency has reached running and is not skipped at that moment |
| SupervisorDecisions.PickDecides | internal/supervisor/supervisor.go:444-453 | the initial start passes a process over exactly when one of its dependencies never reached running or was skipped; otherwise it starts it |
| SupervisorDecisions.SkipLeaves | internal/supervisor/supervisor.go:670-687 | a process that is passed over becomes skipped and makes the run a failed one |
| SupervisorDecisions.InitialEndsForReason | internal/supervisor/supervisor.go:446-448 | the initial start ends before the last process only because of cancellation |
| SupervisorDecisions.ContextDecides | internal/supervisor/supervisor.go:793-806 | a manual start goes past its first check exactly while Run has been called and the supervisor is neither stopping nor cancelled |
| SupervisorDecisions.GateDecides | internal/supervisor/supervisor.go:208-225 | it is rejected exactly when the process is unknown, active, or has a dependency that is not up; otherwise it waits for the last exit only |
| SupervisorDecisions.BeginDecides | internal/supervisor/supervisor.go:468-473 | startProcess refuses exactly while the supervisor is stopping or cancelled |
| SupervisorAttempts.InitialStartDecides | internal/supervisor/supervisor.go:438-463 | unless cancellation cuts it short, the initial start ends with every process launched, refused for a reason, or passed over because a dependency was not up when its turn came |
| SupervisorAttempts.StartProcessDecides | internal/supervisor/supervisor.go:191-234 | StartProcess returns nil exactly if it has started the process, and an error exactly if there was a reason not to |
| SupervisorStops.DownKeeps | internal/supervisor/supervisor.go:467-535 | a process that is down stays down unless the lock holder launches it |
| SupervisorStops.DownLaunchedByHand | internal/supervisor/supervisor.go:605-615 | no backoff timer launches a process that is down |
| SupervisorStops.StopCancels | internal/supervisor/supervisor.go:339-339 | a requested stop has cancelled every reservation made before |
| SupervisorStops.CancelledKeeps | internal/supervisor/supervisor.go:378-384 | a cancelled reservation stays cancelled under every step |
| SupervisorStops.StoppedTimerNeverLaunches | internal/supervisor/supervisor.go:598-615 | a reservation, or a fired timer queued for the lock, that was there when a stop was requested never launches |
| SupervisorStops.TakenOnce | internal/supervisor/supervisor.go:580-615 | one reservation yields at most one launch |
| SupervisorDecisions.TimerDecides | internal/supervisor/supervisor.go:605-615 | a fired timer that gets the lock launches its process unless its token was cancelled or the supervisor is going down |
| SupervisorDecisions.WaitEndsForReason | internal/supervisor/supervisor.go:600-604 | a waiter gives up its reservation only when it was cancelled or the context is |
| SupervisorDecisions.ReservationKept | internal/supervisor/supervisor.go:576-615 | no reservation is forgotten: a process waiting to be restarted whose token stands has a waiter on its way to launch it, or its timer holds the lock |
| SupervisorDecisions.CancelledForReason | internal/supervisor/supervisor.go:378-384 | a token is cancelled only by a stop that covers the process, a manual start of it, its own launch or timer, or shutdown |
| SupervisorDecisions.ExitDecides | internal/supervisor/supervisor.go:547-596 | an exit leaves a reservation exactly if the run was not asked to stop, there is no shutdown and no supervision error, and the policy asks for one at that code; state, exit code, counter and failure mark follow |
| SupervisorOutcomes.FinalExitIsFinal | internal/supervisor/supervisor.go:571-577 | an exit without a reservation is never followed by an automatic restart of that run |
| SupervisorOutcomes.RestartsCounted | internal/supervisor/supervisor.go:579-579 | the restart counter counts the exits that were followed by a reservation |
| SupervisorOutcomes.StatesMean | internal/supervisor/supervisor.go:738-752 | at every point of every run states and exit codes mean what they say: running has a runner that has reached it, stopping one that was asked to stop, pending one never launched or to be launched again, an exit code a run that has ended |
| SupervisorOutcomes.StatesMove | internal/supervisor/supervisor.go:738-752 | a final state stays until the process is launched again, skipped, or its start fails; a stop ends only what is pending, and each other change of state has its one cause |
| SupervisorStops.JoinedStops | internal/supervisor/supervisor.go:362-370 | waiting for a stopped run's channel means that its process has no runner |
| SupervisorStops.LoopKeeps | internal/supervisor/supervisor.go:349-371 | the stop loop's progress survives every step of every other actor |
| SupervisorStops.StopReturnsDown | internal/supervisor/supervisor.go:372-376 | a stop that returns nil leaves everything it covers without runner, final and without reservation |
| SupervisorStops.ManualStopSticks | internal/supervisor/supervisor.go:330-376 | and it stays so at every later point until a manual start or restart that covers it, or the initial start, launches it |
| SupervisorOutcomes.StopsDependentsFirst | internal/supervisor/supervisor.go:349-371 | a stop turns to a process only when everything that depends on it is down, unless a stop has failed before |
| SupervisorAttempts.StopDecides | internal/supervisor/supervisor.go:349-376 | StopProcess and StopAll turn to every process they cover, whatever goes wrong on the way, and return an error exactly if some process could not be stopped |
| SupervisorAttempts.NothingAfterStopAll | internal/supervisor/supervisor.go:284-299 | after StopAll has begun nothing is launched any more |
| SupervisorCompletion.IdleKeeps | internal/supervisor/supervisor.go:480-483 | idle only when everything is settled; every replaced completion channel is closed |
| SupervisorCompletion.SettledUnnoticed | internal/supervisor/supervisor.go:754-764 | everything can become settled unnoticed only inside a stop or the initial start |
| SupervisorCompletion.NoLostCompletion | internal/supervisor/supervisor.go:754-764 | with the operations lock free, idle, a closed completion channel and all processes settled are the same thing if and only if completion was not missed; idle never comes too early; no channel is closed twice |
| SupervisorCompletion.UnnoticedIsMissed | internal/supervisor/supervisor.go:446-448 | outside a stop and the initial start, completion goes unnoticed only because the initial start gave up and no stop has ended since |
| SupervisorCompletion.MissedIsAbandoned | internal/supervisor/supervisor.go:372-374 | and then it stays unnoticed, with nothing running or startable, until a stop ends |
| SupervisorCompletion.MissedOnlyAfterStop | internal/supervisor/supervisor.go:446-448 | it takes a stop issued before Run and a cancelled context |
| SupervisorGivenUp.CompletionCanBeMissed | internal/supervisor/supervisor.go:446-448 | completion can be missed: a complete run that ends settled, unlocked and not idle |
| SupervisorCompletion.WatchedChannelClosed | internal/supervisor/supervisor.go:161-182 | a channel Run watches, even a replaced one, is closed when the supervisor is idle |
| SupervisorCompletion.NothingAfterDone | internal/supervisor/supervisor.go:168-187 | after leaving through the completion channel nothing runs, nothing is pending and nothing is ever launched |
| SupervisorOutcomes.KeepsRunning | internal/supervisor/supervisor.go:153-155 | with KeepRunningWhenDone Run never watches completion and never leaves because of it |
| SupervisorOutcomes.WatchesWhenDone | internal/supervisor/supervisor.go:156-162 | without it Run, at the top of its loop, can always go on to watch the current channel |
| SupervisorOutcomes.LeavesWhenDone | internal/supervisor/supervisor.go:165-182 | once that channel is closed and the lock free, it leaves if the supervisor is idle and looks anew if it is busy again |
| SupervisorOutcomes.LeavesForReason | internal/supervisor/supervisor.go:153-164 | Run stops everything itself only after cancellation |
| SupervisorOutcomes.HadFailedMeans | internal/supervisor/supervisor.go:171-173 | the failure Run reports is there exactly if a process was skipped, could not be started, failed for good, or could not be supervised |
| SupervisorProgress.NoDeadlock | internal/supervisor/supervisor.go:137-812 | at every point of every run the holder of the operations lock can take a step, or waits for a run whose waiter needs no lock to publish its exit |
| SupervisorProgress.WaiterGoesOn | internal/supervisor/supervisor.go:537-617 | a waiter can always go on: its forwarder to the last line, then the exit, its events, and the close or the reservation; a fired timer launches or lapses as soon as the lock is free |
| SupervisorProgress.RunGoesOn | internal/supervisor/supervisor.go:137-189 | Run can always go on at its loop, after cancellation, after completion, and to its end |
| SupervisorProgress.CommandsGoOn | internal/supervisor/supervisor.go:191-299 | a manual command can be taken up whenever the lock is free |
| SupervisorRestart.PlannedMeaning | internal/supervisor/supervisor.go:274-280 | the resume loop's plan holds each process to bring back once, dependencies first |
| SupervisorRestart.RestartReturnsNil | internal/supervisor/supervisor.go:248-282 | on a nil return exactly the named process and the dependents that had a runner, were waiting to be restarted or were pending before were launched, each once and after its dependencies |
| SupervisorRestart.RestartInEveryCase | internal/supervisor/supervisor.go:273-281 | in every case, nothing above a process of the closure that was not brought back is launched |
| SupervisorAttempts.ActiveMeans | internal/supervisor/supervisor.go:261-268 | a process counts as active exactly if it has a live run, is to be restarted, or has never been launched |
| SupervisorAttempts.RestartProcessDecides | internal/supervisor/supervisor.go:248-282 | RestartProcess returns an error exactly if something went wrong, and unless it was refused or a stop failed, every process it is to bring back was launched or refused for a reason |
| SupervisorAttempts.GivingUpLaunchesNothing | internal/supervisor/supervisor.go:270-272 | a restart that was refused, or could not stop something, starts nothing |
| SupervisorEvents.ScanMeaning | internal/supervisor/supervisor.go:505-534 | a reader has no complaint exactly about well-formed streams: starts and exits alternate, lines belong to open runs, cursors have no gaps |
| SupervisorEvents.CommitStream | internal/supervisor/supervisor.go:507-522 | a committed start is announced once, and a reader that has caught up then sees an open run |
| SupervisorEvents.AddStream | internal/supervisor/supervisor.go:627-635 | a line that enters the buffer has the number its event is due, counting on across runs |
| SupervisorEvents.ExitPlay | internal/supervisor/supervisor.go:562-575 | an exit section announces its exit once |
| SupervisorEvents.WellFormedStream | internal/supervisor/supervisor.go:505-651 | at every point of every run the stream of every process is well-formed, with consecutive cursors across runs when logs are retained and zero when not, announces no line that is not in the buffer, and is complete once closed |
| SupervisorAnnounced.ChangesAnnounced | internal/supervisor/supervisor.go:738-752 | every change of state is announced by the step that makes it, with the new state, and nothing else is announced as one |
| SupervisorAnnounced.EventsTell | internal/supervisor/supervisor.go:330-717 | skips, failed starts, failed stops, exits and scheduled restarts are announced, in their order, by the step that makes them and by no other |
| LogRing.Ring.Add | internal/logbuf/ring.go:14-29 | the ring holds the window of the history with one more entry |
| LogRing.Ring.Items | internal/logbuf/ring.go:31-40 | the last entries of the history, as many as are retained |
| LogRing.Ring.State | internal/logbuf/ring.go:42-46 | the cursor and the retained count; the cursor is the number of adds and, from its largest value on, comes round to the limit again and again |
| LogRing.Ring.ItemsSince | internal/logbuf/ring.go:48-71 | exactly the later entries when the cursor is in range, otherwise the whole window with reset, past the cursor wrap too |
| LogRing.OverwriteOldest | internal/logbuf/ring.go:20-23 | overwriting the oldest slot and advancing start drops the oldest entry |
| LogRing.SinceCases | internal/logbuf/ring.go:53-71 | the three cases of a read, in terms of the window |
| LogRing.PositionNext | internal/logbuf/ring.go:24-28 | one more add moves the cursor on by one, or from its largest value to the number of items |
| LogRing.ReadAcrossWrap | internal/logbuf/ring.go:48-71 | a reader that returns with an earlier cursor gets exactly what was added since, or the whole window exactly if that is no longer retained or the cursor has wrapped in between |
| LogCache.Model.ApplyLogBatch | internal/tui/model.go:671-690 | a batch brings the cache to exactly what it describes |
| LogCache.Model.ApplyLogEvent | internal/tui/model.go:547-597 | every branch of the event handler, with the reads it makes |
| LogCache.Model.SyncLogCache | internal/tui/model.go:653-669 | reset, incremental read and second read of a synchronisation |
| LogCache.Model.SelectProcess | internal/tui/model.go:417-427 | a changed selection synchronises, an unchanged one does nothing |
| LogCache.ReadCatchesUp | internal/tui/model.go:662-669 | an incremental read always fits a tracking cache and makes it equal to the window |
| LogCache.SyncReadsOnce | internal/tui/model.go:662-666 | a synchronisation asks for what came after the cursor and never has to ask again |
| LogCache.EventAppends | internal/tui/model.go:578-596 | the next event in line needs no read and keeps the cache equal to the window |
| LogCache.HandleCatchesUp | internal/tui/model.go:547-597 | after an event of the selected process the cache cursor is at least the event's and the cache is the window at its cursor |
| LogCache.ReadsOnlyWhenBehind | internal/tui/model.go:547-597 | events of other processes and events already shown change nothing, the next one in line is appended without a read, and only one further ahead makes the cache read |
| LogCache.SynchroniseKeeps | internal/tui/model.go:145-147 | after the synchronisation of a new model the cache is that of its selection and faithful |
| LogCache.NextKeeps | internal/tui/model.go:547-597 | the first synchronisation, output, events, unknown events and selection changes in any order keep the cache faithful |
| LogCache.RunIsFaithful | internal/tui/model.go:134-149 | in every state of every run, from the new model on, the cached lines are the retained window as of the cache cursor |
| LogCache.EventsGoOn | internal/tui/model.go:547-597 | a process may always print, and its next event always be handled |
| LogCache.SelectionsGoOn | internal/tui/model.go:417-427 | any process may be selected, and the cache synchronised, at any time |
| LogView.Pane.Append | internal/tui/model.go:714-733 | starts, heights, width histogram and maximum stay exact |
| LogView.Pane.Drop | internal/tui/model.go:735-766 | the same after dropping at the front, whatever the count |
| LogView.Pane.ToggleWrap | internal/tui/model.go:469-472 | the same after rebuilding for another wrap mode |
| LogView.Pane.Resize | internal/tui/model.go:639-651 | the same after a change of width |
| LogView.Pane.Relayout | internal/tui/model.go:785-795 | relaying keeps contents and widths and recomputes every start and height |
| LogView.Pane.WidestCount | internal/tui/model.go:759-764 | the widest remaining line, from the histogram alone |
| LogView.Pane.FirstEndingBelow | internal/tui/model.go:894-897 | binary search for the first line ending below a row |
| LogView.Pane.VisibleRange | internal/tui/model.go:887-909 | exactly the lines that meet the viewport, the origin is the height above them, and the fallback never fires |
| Utf8.StartNearby | internal/process/logs.go:36-39 | a character boundary lies within four bytes before any cut |
| Utf8.PartialCharacter | internal/process/logs.go:40-45 | an incomplete character at the end of what is pending is recognised as one |
| LineSplitter.FindCut | internal/process/logs.go:33-45 | every cut is positive, within the limit, and that of the greedy split whatever follows, even when the look-ahead holds part of a character |
| LineSplitter.DrainLong | internal/process/logs.go:33-48 | conserves every byte, bounds every record from both sides, keeps the last byte pending, terminates |
| LineSplitter.ScanLines | internal/process/logs.go:15-60 | for every division into reads and all bytes: each line's records concatenate to the line without its newline and one carriage return, fit, are full up to one character but for the last, keep their order, and are the greedy split when the line is valid |
| LineSplitter.GreedyConserves | internal/process/logs.go:11-13 | the greedy split loses nothing and fits |
| LineSplitter.GreedyValid | internal/process/logs.go:11-13 | and never breaks a valid character |
| LineSplitter.StreamLines | internal/process/logs.go:21-32 | however the stream was read, its lines are those of its text |
| LineSplitter.BufferedReads | internal/process/logs.go:16-32 | the text alone decides where the reads of the 64 KiB buffer end |
| LineSplitter.BufferedAgree | internal/process/logs.go:15-60 | two readings of the same valid text record the same |
| LineSplitter.BufferedRecords | internal/process/logs.go:29-52 | a valid line is recorded as its greedy split if and only if it does not end in a carriage return with its last record full and its length a multiple of the read buffer; then one empty record more is emitted |
| LineSplitter.ReadShows | internal/process/logs.go:16-52 | such a text, read as the buffer delivers it, is recorded with an empty record more than its greedy split |
| AttachSections.Worker.BeginAttach | internal/session/server.go:163-179 | refuses exactly while the session is closing or another client is attached, naming the first reason; otherwise the client is attached with nothing yet queued |
| AttachSections.Worker.TakeSnapshot | internal/session/server.go:180-183 | every process is read at its own moment, while lines go on being added, as the window of that moment; then the lock is released |
| AttachSections.Worker.EnqueueLocked | internal/session/server.go:243-255 | drops, queues or detaches; waits exactly when the queue is full and the client is not gone |
| AttachSections.Worker.PublishNext | internal/session/server.go:237-241 | publishes the next event of the stream to the attached client |
| AttachSections.Worker.PublishResult | internal/session/server.go:91-95 | closes the session and publishes the result last |
| AttachInvariant.NextKeeps | internal/session/server.go:80-255 | every step of the event loop, of handlers and of connections keeps the protocol's invariant |
| AttachInvariant.ReadHistory | internal/session/server.go:180-182 | a read under the lock is a window that contains every line published before the attachment |
| AttachInvariant.EnqueueActive | internal/session/server.go:243-255 | a message reaches the queue of the attached client and no other, or detaches it |
| AttachInvariant.DeliveredShare | internal/session/server.go:210-216 | a delivery, failed or not, keeps delivered, lost and queued together the client's share of what was published |
| AttachInvariant.CleanupKeeps | internal/session/server.go:184-191 | a handler's cleanup gives up its own attachment only |
| AttachInvariant.ShareOfClient | internal/session/server.go:163-255 | what a client is given is exactly what was published while it was attached, in order; no message goes to two clients; the result comes last |
| AttachInvariant.RunIsExclusive | internal/session/server.go:165-175 | attachments follow one another, each ended before the next began |
| AttachInvariant.DetachedBy | internal/session/server.go:184-191 | a client is detached only by its own cleanup or once its done channel is closed |
| AttachInvariant.StartedOnce | internal/session/server.go:196-201 | start is closed at most once and nobody attaches after closing |
| AttachProgress.HandlerEndsForReason | internal/session/server.go:192-234 | a handler stops serving its client only because a write failed, the result was delivered, the client is gone, or the session has ended and the queue is empty; a message is delivered unless its write fails |
| AttachProgress.HandlerGoesOn | internal/session/server.go:163-234 | no handler is ever stuck: it can take a step, or waits for the server's lock, for a message, for its client to go or for the session to end |
| AttachProgress.WorkerGoesOn | internal/session/server.go:80-95 | the event loop serves once a client has been prepared, publishes events and result unless a present client's queue is full, and ends; a client can attach whenever none is and the session is not closing |
| Headless.History | internal/session/client.go:109-125 | exactly the retained lines with their original cursors, sorted by time |
| Headless.CollectProcess | internal/session/client.go:114-121 | the lines of one process keep the buffer's order |
| Headless.StableMeaning | internal/session/client.go:123-123 | the sort permutes and orders by time |
| Headless.StableOf | internal/session/client.go:123-123 | lines of one process with non-decreasing times keep their order |
| Headless.Read | internal/session/client.go:65-94 | every event before the result, in order |
| Headless.RunHeadless | cmd/procdeck/main.go:156-183 | the history and then what the cursor map lets through |
| Headless.PrintsWhatIsNew | cmd/procdeck/main.go:158-181 | the history and then, in order, exactly the live events that are no lines, have no cursor, or lie beyond every line of their process seen before |
| Headless.PrintsAllOthers | cmd/procdeck/main.go:170-181 | whatever is not a log line is printed once and in order |
| Headless.PrintsUnnumbered | cmd/procdeck/main.go:171-177 | so is every line of a process whose lines carry no cursor |
| ExactlyOnce.HistoryIsWindow | internal/session/client.go:113-121 | the reconstructed cursors are those the lines were added with |
| ExactlyOnce.SnapshotCursor | cmd/procdeck/main.go:158-161 | after the history, in whatever order it comes, the loop stands at the snapshot's cursor |
| ExactlyOnce.ReceivedLines | cmd/procdeck/main.go:170-181 | from there it prints exactly the lines after the snapshot, each once and in cursor order |
| ExactlyOnce.PrintsExactlyOnce | cmd/procdeck/main.go:156-183 | wherever a snapshot falls between adding a line and publishing its event, a client prints the retained window and then every later line it is sent, each once |
| ExactlyOnce.PrintsAsSent | cmd/procdeck/main.go:170-181 | without retention a client prints exactly the lines sent while it was attached, each once and in order |
| ExactlyOnce.PrintsInOrder | cmd/procdeck/main.go:156-183 | with timestamps that do not run backwards the whole output is in cursor order |
| Composition.HandAfter | internal/supervisor/supervisor.go:619-651 | only the forwarder of the current run takes a line in hand or sends it; no other step touches it |
| Composition.SendRefines | internal/supervisor/supervisor.go:638-649 | the event a forwarder sends is, in the protocol, the next line of its process, with its entry and cursor |
| Composition.SupervisorRefines | internal/session/server.go:83-90 | every step of the supervisor is a step of the protocol's environment or none |
| Composition.WorldKeeps | internal/session/server.go:60-99 | every step of the worker process keeps both invariants and, for every process, that each line added has been announced but for the one in hand |
| Composition.WorkerRuns | internal/session/server.go:60-99 | every run of the worker process is a run of the attach and publish protocol |
| Composition.WorkerGoesOn | internal/session/server.go:60-99 | the worker process takes every step its parts can take, but that Run is called when the event loop serves and the loop ends after the supervisor |
| Composition.AddedIsPrinted | internal/supervisor/supervisor.go:619-635 | a buffer has been given exactly what its process printed, in order |
| Composition.AllAnnounced | internal/supervisor/supervisor.go:638-651 | once the supervisor has finished, every line printed has been announced |
| Composition.WireIsStream | internal/session/server.go:80-90 | the wire carries the supervisor's stream event by event and in order, all but its end |
| Composition.ClientPrintsOutput | cmd/procdeck/main.go:156-183 | end to end: a client prints the window it found and then every line its process has printed since, each once and in order, up to the last one sent to it, and up to the last line of the last run once it has the result |
| Composition.ClientPrintsUnretained | cmd/procdeck/main.go:156-183 | the same for a process without retention: every line printed since the client attached and sent to it, and all of them once it has the result |
| Composition.ClientPrintsOthers | cmd/procdeck/main.go:170-181 | and of everything that is no log line: exactly what was sent while the client was attached, once and in order |

## Left out

- Real processes, terminals, signals and pipes: a run is an environment that may fail to start, produces lines, exits with any result once, and whose Stop fails or returns after the exit.
- A process's pid and start time, and the texts of events and errors: they carry no decision.
- Commands that fail before they take part: an unknown process name, a second call of Run, a graph that New has rejected.
- The records of processes are values in a map the methods reassign, not objects shared by pointer; the source never shares one outside the supervisor.
- The generation counter and buffer cursors of the supervisor model are unbounded; the ring itself is modelled with its 64-bit cursor and its wrap.
- Fairness: that a step that can be taken is ever taken, and that a blocked publish or a waiting lock is served. The event channel never blocks its sender; what is shown is that nobody is stuck.
- Wall-clock times and backoff lengths: timers fire at any moment.
- Snapshots, their copies, and the status line: read-only.
- YAML decoding, defaults, environment files and shell quoting: single checks or library calls.
- Session launch, sockets, JSON, flock and private directories: operating-system plumbing; the session server's start-up timeout is one step.
- Rendering, key handling and scrolling of the terminal interface: line height is any function that is at least 1, width any function.
- SupervisorDependencies.LaunchWaitsForDependencies: does not cover automatic restarts, because a backoff timer launches without looking at dependencies again.
- LogCache.RunIsFaithful: assumes that log reads reach the server and cursors stay below the wrap.
- SupervisorEvents.WellFormedStream: does not order state changes against exits; a `stopping` change may be sent after the exit because it is sent outside the lock.
- LineSplitter.BufferedReads: for readers that never deliver bytes together with an error, as the files scanLines is given do not; `LineSplitter.ScanLines` covers every reader.
