/** What holds of one process between any two critical sections, and that each section
    keeps it. A view is all of the supervisor that concerns the process. */
module SupervisorUnit {
  import opened Lifecycle
  import opened Options
  import opened SupervisorMachine

  /** The process's record and waiters, where the holder of the operations lock stands
      with it (Return when it is busy elsewhere), the run whose backoff timer has taken
      the lock, and whether the initial start has not come to the process yet. */
  datatype View = View(p: Proc, ws: map<nat, Waiter>, at: Pc, timer: Option<nat>, ahead: bool)

  predicate Watched(phase: WaiterPhase) {
    phase.Live? || phase.Done?
  }

  predicate Launching(pc: Pc) {
    pc.Exec? || pc.CommitAt? || pc.Spawn?
  }

  predicate Launchable(pc: Pc) {
    pc.Begin? || Launching(pc) || pc.Fail?
  }

  predicate RunnerState(state: PState) {
    state.Starting? || state.Running? || state.Stopping?
  }

  /** A process with a runner has exactly one live run, the current one: its finished
      channel is open, and either its waiter or the launching holder looks after it. */
  ghost predicate RunnerOk(v: View) {
    v.p.runner.Some? ==>
      && v.p.runner.value == v.p.gen && v.p.finished == Some(v.p.gen) && v.p.gen !in v.p.closed
      && RunnerState(v.p.state) && !v.p.restarting && v.p.restartCancel.None?
      && if Launching(v.at) || v.at.Fail? then v.p.gen !in v.ws
         else v.p.gen in v.ws && Watched(v.ws[v.p.gen].phase)
  }

  /** The previous run has published its exit. */
  predicate Published(p: Proc) {
    p.finished.Some? ==> p.finished.value in p.closed
  }

  /** Without a runner the last run has published its exit, or its waiter is about to. */
  ghost predicate RestOk(v: View) {
    v.p.runner.None? ==>
      && !Launching(v.at)
      && (Terminal(v.p.state) || v.p.state.Pending? || (v.p.state.Starting? && v.at.Fail?))
      && (Published(v.p) || (v.p.finished == Some(v.p.gen) && v.p.gen in v.ws && v.ws[v.p.gen].phase.Publishing?))
  }

  /** A reservation belongs to the current generation of a process without a runner. */
  predicate ReservationOk(p: Proc) {
    && (p.restarting ==> p.state.Pending? && !p.stopRequested && p.restartCancel == Some(p.gen))
    && (p.restartCancel.Some? ==> p.restartCancel.value == p.gen && 0 < p.gen && p.runner.None?)
  }

  predicate StopOk(v: View) {
    v.p.stopRequested ==>
      !v.p.reached && v.p.restartCancel.None? && !Launching(v.at) && (v.p.runner.None? ==> Terminal(v.p.state))
  }

  ghost predicate HolderOk(v: View) {
    && (v.at.ManualWait? ==> v.p.runner.None? && !v.p.restarting && v.p.restartCancel.None? && !v.p.reached
                             && v.at.finished == v.p.finished)
    && (v.at.Begin? ==> v.p.runner.None? && Published(v.p)
                        && (if v.timer.Some? then v.timer.value == v.p.gen && v.p.restarting
                            else !v.p.restarting && v.p.restartCancel.None?))
    && (v.at.Fail? && v.p.runner.None? ==> Published(v.p) && (v.p.restarting ==> v.timer == Some(v.p.gen)))
    && (v.at.SkipAt? ==> v.p.runner.None? && !v.p.restarting && v.p.restartCancel.None? && !v.p.reached)
    && (Launching(v.at) ==> v.timer.None? || v.timer.value < v.p.gen)
    && (v.timer.Some? ==> 0 < v.timer.value <= v.p.gen && v.timer.value !in v.ws)
  }

  ghost predicate WaiterOk(p: Proc, k: nat, w: Waiter) {
    && 0 < k <= p.gen
    && match w.phase
       case Live => k == p.gen && p.runner == Some(k) && w.outbox == []
       case Done(_) => k == p.gen && p.runner == Some(k) && w.outbox == []
       case Publishing(restart, finished) =>
         && k == p.gen && p.runner.None? && finished == p.finished == Some(k) && k !in p.closed
         && w.lines == 0 && w.inHand.None?
         && (restart && k !in p.cancelled ==> p.restarting)
       case _ =>
         && k in p.closed && w.lines == 0 && w.inHand.None? && w.outbox == []
         && (k !in p.cancelled ==> k == p.gen && p.restarting)
  }

  ghost predicate NumbersOk(p: Proc) {
    && (p.finished.Some? ==> 0 < p.finished.value <= p.gen)
    && (forall k :: k in p.closed ==> 0 < k <= p.gen)
    && (forall k :: k in p.cancelled ==> 0 < k <= p.gen)
    && !p.panicked
  }

  /** A process the initial start has not come to yet has never been started. */
  predicate Untouched(v: View) {
    && v.p.runner.None? && v.p.gen == 0 && v.p.finished.None? && v.p.restartCancel.None? && !v.p.restarting
    && !v.p.reached && v.ws == map[] && (v.p.state.Pending? || v.p.state.Exited?)
  }

  ghost predicate UnitOk(v: View) {
    && RunnerOk(v) && RestOk(v) && ReservationOk(v.p) && StopOk(v) && HolderOk(v) && NumbersOk(v.p)
    && (forall k :: k in v.ws ==> WaiterOk(v.p, k, v.ws[k]))
    && (v.ahead ==> Untouched(v))
  }

  // ---------- Sections of the lock holder ----------

  lemma FreshKeeps(v: View)
    requires v == View(NewProc, map[], Return, None, true)
    ensures UnitOk(v)
  {
  }

  predicate Elsewhere(pc: Pc) {
    !pc.ManualWait? && !pc.SkipAt? && !Launchable(pc)
  }

  /** The holder moves away from a process, or towards it without having looked yet. */
  lemma MoveKeeps(v: View, pc: Pc, timer: Option<nat>, ahead: bool)
    requires UnitOk(v) && !Launching(v.at) && (v.at.Fail? ==> false) && Elsewhere(pc)
    requires timer.Some? ==> timer == v.timer
    requires ahead ==> v.ahead
    ensures UnitOk(v.(at := pc, timer := timer, ahead := ahead))
  {
  }

  lemma InitialKeeps(v: View, pc: Pc)
    requires UnitOk(v) && v.ahead && Elsewhere(v.at) && v.timer.None? && (pc.Begin? || pc.SkipAt?)
    ensures UnitOk(v.(at := pc, ahead := false))
  {
  }

  lemma SkipKeeps(v: View, ahead: bool)
    requires UnitOk(v) && v.at.SkipAt? && (ahead ==> v.ahead)
    ensures UnitOk(v.(p := Skip(v.p), at := Return, ahead := false))
  {
  }

  lemma MarkKeeps(v: View)
    requires UnitOk(v) && v.at.Return? && v.timer.None?
    ensures UnitOk(v.(p := MarkOne(v.p)))
  {
  }

  lemma TurnKeeps(v: View)
    requires UnitOk(v) && v.at.Return?
    ensures UnitOk(v.(p := TurnStopping(v.p)))
  {
  }

  lemma AdmitKeeps(v: View, name: string)
    requires UnitOk(v) && v.at.ManualGate? && v.timer.None? && v.p.runner.None? && !v.ahead
    requires Terminal(v.p.state) || v.p.state.Pending?
    ensures UnitOk(v.(p := Admit(v.p), at := ManualWait(name, v.p.finished)))
  {
  }

  lemma WaitKeeps(v: View, name: string)
    requires UnitOk(v) && v.at.ManualWait? && v.timer.None?
    requires v.at.finished.Some? ==> v.at.finished.value in v.p.closed
    ensures UnitOk(v.(at := Begin(name)))
  {
  }

  lemma RefuseKeeps(v: View, name: string)
    requires UnitOk(v) && v.at.Begin?
    ensures UnitOk(v.(at := Fail(name)))
  {
  }

  lemma LaunchKeeps(v: View, name: string, spec: bool)
    requires UnitOk(v) && v.at.Begin? && !v.ahead
    ensures UnitOk(v.(p := Launch(v.p, spec), at := if spec then Exec(name) else Fail(name)))
  {
    var p := Launch(v.p, spec);
    forall k | k in v.ws ensures WaiterOk(p, k, v.ws[k]) {
      assert WaiterOk(v.p, k, v.ws[k]);
    }
  }

  lemma ExecKeeps(v: View, pc: Pc)
    requires UnitOk(v) && v.at.Exec? && (pc.CommitAt? || pc.Fail?)
    ensures UnitOk(v.(at := pc))
  {
  }

  lemma CommitKeeps(v: View, name: string)
    requires UnitOk(v) && v.at.CommitAt? && !v.ahead
    ensures UnitOk(v.(p := Commit(v.p), at := Spawn(name)))
  {
  }

  lemma SpawnKeeps(v: View)
    requires UnitOk(v) && v.at.Spawn? && !v.ahead
    ensures UnitOk(v.(ws := v.ws[v.p.gen := Waiter(Live, 0, None, [])], at := Return))
  {
  }

  lemma FailKeeps(v: View)
    requires UnitOk(v) && v.at.Fail? && !v.ahead
    ensures UnitOk(v.(p := FailStart(v.p), at := Return))
  {
  }

  /** The lock is released by a fired timer: its token is cancelled. */
  lemma LeaveKeeps(v: View)
    requires UnitOk(v) && v.timer.Some?
    ensures UnitOk(v.(p := LeaveTimer(v.p, v.timer.value)))
  {
  }

  // ---------- Sections of a waiter ----------

  lemma TimerTakeKeeps(v: View, k: nat, name: string, stopping: bool, ctxDone: bool)
    requires UnitOk(v) && k in v.ws && v.ws[k].phase.Fired? && Elsewhere(v.at) && v.timer.None?
    ensures TimerValid(v.p, k, stopping, ctxDone) ==> UnitOk(v.(ws := v.ws - {k}, at := Begin(name), timer := Some(k)))
  {
    assert WaiterOk(v.p, k, v.ws[k]);
  }

  lemma LapseKeeps(v: View, k: nat)
    requires UnitOk(v) && k in v.ws && (v.ws[k].phase.Fired? || v.ws[k].phase.Reserved?)
    ensures UnitOk(v.(p := LeaveTimer(v.p, k), ws := v.ws - {k}))
  {
    assert WaiterOk(v.p, k, v.ws[k]);
  }

  /** Sending an event, taking a line in, noting the result or the timer. */
  lemma UpdateKeeps(v: View, k: nat, w: Waiter)
    requires UnitOk(v) && k in v.ws && (WaiterOk(v.p, k, v.ws[k]) ==> WaiterOk(v.p, k, w))
    requires Watched(w.phase) == Watched(v.ws[k].phase) && w.phase.Publishing? == v.ws[k].phase.Publishing?
    ensures UnitOk(v.(ws := v.ws[k := w]))
  {
  }

  lemma AddKeeps(v: View, k: nat, w: Waiter, retains: bool)
    requires UnitOk(v) && k in v.ws && Watched(v.ws[k].phase) && w.phase == v.ws[k].phase
    requires w.outbox == v.ws[k].outbox
    ensures UnitOk(v.(p := AddLog(v.p, retains), ws := v.ws[k := w]))
  {
    assert WaiterOk(v.p, k, v.ws[k]);
  }

  /** The stale-generation return of waitProcess is never taken. */
  lemma NeverStale(v: View, k: nat)
    requires UnitOk(v) && k in v.ws && v.ws[k].phase.Done?
    ensures v.p.gen == k && v.p.runner == Some(k)
  {
    assert WaiterOk(v.p, k, v.ws[k]);
  }

  lemma ExitKeeps(v: View, k: nat, policy: Policy, stopping: bool, outbox: seq<Event>)
    requires UnitOk(v) && k in v.ws && v.ws[k].phase.Done? && v.ws[k].lines == 0 && v.ws[k].inHand.None?
    ensures var outcome := v.ws[k].phase.outcome;
            var restart := ExitRestarts(policy, v.p, stopping, outcome);
            UnitOk(v.(p := Exit(v.p, restart, outcome),
                      ws := v.ws[k := v.ws[k].(phase := Publishing(restart, v.p.finished), outbox := outbox)]))
  {
    NeverStale(v, k);
    forall j | j in v.ws ensures WaiterOk(v.p, j, v.ws[j]) {
    }
  }

  /** Each finished channel is closed once. */
  lemma CloseKeeps(v: View, k: nat)
    requires UnitOk(v) && k in v.ws && v.ws[k].phase.Publishing? && v.ws[k].outbox == []
    ensures v.ws[k].phase.finished == Some(k) && k !in v.p.closed
    ensures UnitOk(v.(p := CloseFinished(v.p, v.ws[k].phase.finished),
                      ws := if v.ws[k].phase.restart then v.ws[k := v.ws[k].(phase := Reserved)] else v.ws - {k}))
  {
    assert WaiterOk(v.p, k, v.ws[k]);
  }
}
