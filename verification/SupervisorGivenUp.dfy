/** Completion can really be missed: a run in which a process is stopped before Run is called
    and Run is then cancelled during the initial start ends with every process settled and
    the supervisor not idle. */
module SupervisorGivenUp {
  import opened DependencyGraph
  import opened StopOrder
  import opened Lifecycle
  import opened Options
  import opened SupervisorMachine
  import opened SupervisorCompletion

  // b and c depend on a. c is stopped, then Run is called: a cannot be started, b is
  // skipped, and before the start comes to c the context is cancelled.

  function Three<T>(a: T, b: T, c: T): map<string, T> {
    map["a" := a, "b" := b, "c" := c]
  }

  const Example := Config(Three<seq<string>>([], ["a"], ["a"]), Three(Never, Never, Never), Three(true, true, true), false)

  const Halted := NewProc.(stopRequested := true, state := Exited)
  const Begun := NewProc.(gen := 1, state := Starting)
  const Broken := Begun.(exitCode := Some(1), state := Failed)
  const Passed := NewProc.(state := Skipped)

  function At(a: Proc, b: Proc, c: Proc, failed: bool, holder: Holder, events: seq<Event>, phase: RunPhase, early: bool, ctxDone: bool): Sys {
    Sys(Core(Three(a, b, c), false, 0, {}, false, false, failed), ctxDone, holder, Three(map[], map[], map[]), events, phase, early)
  }

  lemma Names()
    ensures "a" != "b" && "a" != "c" && "b" != "c"
  {
    assert "a"[0] != "b"[0] && "a"[0] != "c"[0] && "b"[0] != "c"[0];
  }

  lemma ExampleEdges(x: string, y: string)
    ensures Edge(Example.deps, x, y) <==> (x == "b" || x == "c") && y == "a"
  {
    Names();
  }

  lemma ExampleValid()
    ensures ConfigOk(Example) && IsStartOrder(Example, ["a", "b", "c"])
  {
    Names();
    var deps, order := Example.deps, ["a", "b", "c"];
    forall x, y ensures Edge(deps, x, y) <==> (x == "b" || x == "c") && y == "a" {
      ExampleEdges(x, y);
    }
    forall i, d | 0 <= i < |order| && Edge(deps, order[i], d) ensures d in order[..i] {
      assert order[..i][0] == "a";
    }
    TopologicalAcyclic(deps, order);
  }

  /** Nothing depends on c. */
  lemma StopsOnlyC()
    ensures IsStopOrder(Example.deps, "c", ["c"])
  {
    Names();
    var deps := Example.deps;
    ReachesSelf(deps, "c");
    forall x | x in deps && Reaches(deps, x, "c") ensures x == "c" {
      if x != "c" {
        var y := ReachesThrough(deps, x, "c");
        ExampleEdges(x, y);
        var z := ReachesThrough(deps, y, "c");
        ExampleEdges(y, z);
      }
    }
  }

  /** Everything the run sends. */
  const Log := [
    StateChanged("c", Exited), StateChanged("a", Starting), StateChanged("a", Failed), SupervisorError("a"),
    StateChanged("b", Skipped), ProcessSkipped("b")]

  function Stop(pc: Pc, index: nat, outbox: seq<Event>): Holder {
    Busy(OpStop(["c"]), pc, index, outbox, [], false)
  }

  function Initial(pc: Pc, index: nat, outbox: seq<Event>): Holder {
    Busy(OpInitial(["a", "b", "c"]), pc, index, outbox, [], false)
  }

  const S0 := At(NewProc, NewProc, NewProc, false, Free, Log[..0], NotCalled, false, false)
  const S1 := At(NewProc, NewProc, NewProc, false, Stop(Mark, 0, []), Log[..0], NotCalled, true, false)
  const S2 := At(NewProc, NewProc, Halted, false, Stop(StopNext, 0, [StateChanged("c", Exited)]), Log[..0], NotCalled, true, false)
  const S3 := At(NewProc, NewProc, Halted, false, Stop(StopNext, 0, []), Log[..1], NotCalled, true, false)
  const S4 := At(NewProc, NewProc, Halted, false, Stop(StopNext, 1, []), Log[..1], NotCalled, true, false)
  const S5 := At(NewProc, NewProc, Halted, false, Stop(Return, 1, []), Log[..1], NotCalled, true, false)
  const S6 := At(NewProc, NewProc, Halted, false, Free, Log[..1], NotCalled, true, false)
  const S7 := At(NewProc, NewProc, Halted, false, Initial(InitialNext, 0, []), Log[..1], StartingUp, true, false)
  const S8 := At(NewProc, NewProc, Halted, false, Initial(Begin("a"), 0, []), Log[..1], StartingUp, true, false)
  const S9 := At(Begun, NewProc, Halted, false, Initial(Fail("a"), 0, [StateChanged("a", Starting)]), Log[..1], StartingUp, true, false)
  const S10 := At(Begun, NewProc, Halted, false, Initial(Fail("a"), 0, []), Log[..2], StartingUp, true, false)
  const S11 := At(Broken, NewProc, Halted, true, Initial(InitialNext, 1, [StateChanged("a", Failed), SupervisorError("a")]), Log[..2], StartingUp, true, false)
  const S12 := At(Broken, NewProc, Halted, true, Initial(InitialNext, 1, [SupervisorError("a")]), Log[..3], StartingUp, true, false)
  const S13 := At(Broken, NewProc, Halted, true, Initial(InitialNext, 1, []), Log[..4], StartingUp, true, false)
  const S14 := At(Broken, NewProc, Halted, true, Initial(SkipAt("b"), 1, []), Log[..4], StartingUp, true, false)
  const S15 := At(Broken, Passed, Halted, true, Initial(InitialNext, 2, [StateChanged("b", Skipped), ProcessSkipped("b")]), Log[..4], StartingUp, true, false)
  const S16 := At(Broken, Passed, Halted, true, Initial(InitialNext, 2, [ProcessSkipped("b")]), Log[..5], StartingUp, true, false)
  const S17 := At(Broken, Passed, Halted, true, Initial(InitialNext, 2, []), Log[..6], StartingUp, true, false)
  const S18 := At(Broken, Passed, Halted, true, Initial(InitialNext, 2, []), Log[..6], StartingUp, true, true)
  const S19 := At(Broken, Passed, Halted, true, Initial(Return, 2, []), Log[..6], StartingUp, true, true)
  const S20 := At(Broken, Passed, Halted, true, Free, Log[..6], AtTop, true, true)

  lemma FailsA()
    ensures CheckDone(Put(S10.core, "a", FailStart(Begun)).(hadFailed := true)) == S11.core && S10.core.procs["a"] == Begun
    ensures Changed("a", Begun, Failed) + [SupervisorError("a")] == S11.holder.outbox
  {
    Names();
    assert S10.core.procs["a" := Broken] == S11.core.procs;
    assert "b" in S11.core.procs && !Settled(S11.core.procs["b"]);
  }

  lemma SkipsB()
    ensures Put(S14.core, "b", Skip(NewProc)).(hadFailed := true) == S15.core && S14.core.procs["b"] == NewProc
    ensures Changed("b", NewProc, Skipped) + [ProcessSkipped("b")] == S15.holder.outbox
  {
    Names();
    assert S14.core.procs["b" := Passed] == S15.core.procs;
  }

  lemma Step0()
    ensures Next(Example, S0, S1, StopCmd("c", ["c"]))
  {
    Names();
    StopsOnlyC();
  }

  lemma Step1()
    ensures Next(Example, S1, S2, MarkStep)
  {
    Names();
    assert ["c"][..0] == [];
    assert MarkEvents(S1.core, []) == [];
    assert MarkEvents(S1.core, ["c"]) == [StateChanged("c", Exited)];
    assert MarkStopped(S1.core, ["c"]).procs == S2.core.procs;
  }

  lemma Step2()
    ensures Next(Example, S2, S3, HolderEmit)
  {
    Names();
    assert S2.holder.outbox[1..] == S3.holder.outbox;
    assert S2.events + [S2.holder.outbox[0]] == S3.events;
  }

  lemma Step3()
    ensures Next(Example, S3, S4, PassStep("c"))
  {
    Names();
  }

  lemma Step4()
    ensures Next(Example, S4, S5, StopEndStep)
  {
    Names();
    assert "a" in S4.core.procs && !Settled(S4.core.procs["a"]);
  }

  lemma Step5()
    ensures Next(Example, S5, S6, ReturnStep)
  {
    Names();
  }

  lemma Step6()
    ensures Next(Example, S6, S7, RunBegin(["a", "b", "c"]))
  {
    Names();
    ExampleValid();
  }

  lemma Step7()
    ensures Next(Example, S7, S8, PickStep)
  {
    Names();
  }

  lemma Step8()
    ensures Next(Example, S8, S9, LaunchStep(false))
  {
    Names();
  }

  lemma Step9()
    ensures Next(Example, S9, S10, HolderEmit)
  {
    Names();
    assert S9.holder.outbox[1..] == S10.holder.outbox;
    assert S9.events + [S9.holder.outbox[0]] == S10.events;
  }

  lemma Step10()
    ensures Next(Example, S10, S11, FailStep)
  {
    hide CheckDone, Put, FailStart, Skip, Changed;
    Names();
    FailsA();
  }

  lemma Step11()
    ensures Next(Example, S11, S12, HolderEmit)
  {
    Names();
    assert S11.holder.outbox[1..] == S12.holder.outbox;
    assert S11.events + [S11.holder.outbox[0]] == S12.events;
  }

  lemma Step12()
    ensures Next(Example, S12, S13, HolderEmit)
  {
    Names();
    assert S12.holder.outbox[1..] == S13.holder.outbox;
    assert S12.events + [S12.holder.outbox[0]] == S13.events;
  }

  lemma Step13()
    ensures Next(Example, S13, S14, PickStep)
  {
    Names();
    assert "a" in Example.deps["b"] && !S13.core.procs["a"].reached;
  }

  lemma Step14()
    ensures Next(Example, S14, S15, SkipStep)
  {
    hide CheckDone, Put, FailStart, Skip, Changed;
    Names();
    SkipsB();
  }

  lemma Step15()
    ensures Next(Example, S15, S16, HolderEmit)
  {
    Names();
    assert S15.holder.outbox[1..] == S16.holder.outbox;
    assert S15.events + [S15.holder.outbox[0]] == S16.events;
  }

  lemma Step16()
    ensures Next(Example, S16, S17, HolderEmit)
  {
    Names();
    assert S16.holder.outbox[1..] == S17.holder.outbox;
    assert S16.events + [S16.holder.outbox[0]] == S17.events;
  }

  lemma Step17()
    ensures Next(Example, S17, S18, ContextCancel)
  {
    Names();
  }

  lemma Step18()
    ensures Next(Example, S18, S19, InitialEndStep)
  {
    Names();
  }

  lemma Step19()
    ensures Next(Example, S19, S20, ReturnStep)
  {
    Names();
  }

  lemma AllSame<T>(v: T)
    ensures (map n | n in Example.deps :: v) == Three(v, v, v)
  {
    Names();
  }

  lemma StartState()
    ensures Init(Example, S0)
  {
    hide ConfigOk;
    ExampleValid();
    AllSame(NewProc);
    AllSame<map<nat, Waiter>>(map[]);
  }

  lemma Continue(trace: seq<Sys>, steps: seq<Step>, s: Sys, s': Sys, step: Step)
    requires Trace(Example, trace, steps) && trace[|trace| - 1] == s && Next(Example, s, s', step)
    ensures Trace(Example, trace + [s'], steps + [step])
  {
    hide Next, Init;
    var trace', steps' := trace + [s'], steps + [step];
    forall i | 0 <= i < |steps'| ensures Next(Example, trace'[i], trace'[i + 1], steps'[i]) {
      if i < |steps| { assert Next(Example, trace[i], trace[i + 1], steps[i]); }
    }
  }

  lemma StartRun() returns (trace: seq<Sys>, steps: seq<Step>)
    ensures Trace(Example, trace, steps) && trace == [S0] && steps == []
  {
    hide Next, Init;
    StartState();
    trace, steps := [S0], [];
  }

  lemma GaveUp()
    ensures GivesUp(S18, InitialEndStep)
    ensures S20.holder.Free? && Began(S20) && AllDone(S20.core) && !S20.core.idle
  {
    Names();
  }

  lemma MissedAtEnd(trace: seq<Sys>, steps: seq<Step>)
    requires |trace| == 21 && |steps| == 20 && GivesUp(trace[18], steps[18]) && steps[19].ReturnStep?
    ensures Missed(trace, steps, 20)
  {
    hide GivesUp;
    assert MissedSince(trace, steps, 18, 20);
  }

  /** c is stopped before Run, */
  lemma StopFirst() returns (trace: seq<Sys>, steps: seq<Step>)
    ensures Trace(Example, trace, steps) && |trace| == 8 && |steps| == 7 && trace[7] == S7
  {
    hide Next, Init, Trace;
    trace, steps := StartRun();
    Step0();
    Continue(trace, steps, S0, S1, StopCmd("c", ["c"]));
    trace, steps := trace + [S1], steps + [StopCmd("c", ["c"])];
    Step1();
    Continue(trace, steps, S1, S2, MarkStep);
    trace, steps := trace + [S2], steps + [MarkStep];
    Step2();
    Continue(trace, steps, S2, S3, HolderEmit);
    trace, steps := trace + [S3], steps + [HolderEmit];
    Step3();
    Continue(trace, steps, S3, S4, PassStep("c"));
    trace, steps := trace + [S4], steps + [PassStep("c")];
    Step4();
    Continue(trace, steps, S4, S5, StopEndStep);
    trace, steps := trace + [S5], steps + [StopEndStep];
    Step5();
    Continue(trace, steps, S5, S6, ReturnStep);
    trace, steps := trace + [S6], steps + [ReturnStep];
    Step6();
    Continue(trace, steps, S6, S7, RunBegin(["a", "b", "c"]));
    trace, steps := trace + [S7], steps + [RunBegin(["a", "b", "c"])];
  }

  /** Run begins and a cannot be started, */
  lemma StartFails() returns (trace: seq<Sys>, steps: seq<Step>)
    ensures Trace(Example, trace, steps) && |trace| == 15 && |steps| == 14 && trace[14] == S14
  {
    hide Next, Init, Trace;
    trace, steps := StopFirst();
    Step7();
    Continue(trace, steps, S7, S8, PickStep);
    trace, steps := trace + [S8], steps + [PickStep];
    Step8();
    Continue(trace, steps, S8, S9, LaunchStep(false));
    trace, steps := trace + [S9], steps + [LaunchStep(false)];
    Step9();
    Continue(trace, steps, S9, S10, HolderEmit);
    trace, steps := trace + [S10], steps + [HolderEmit];
    Step10();
    Continue(trace, steps, S10, S11, FailStep);
    trace, steps := trace + [S11], steps + [FailStep];
    Step11();
    Continue(trace, steps, S11, S12, HolderEmit);
    trace, steps := trace + [S12], steps + [HolderEmit];
    Step12();
    Continue(trace, steps, S12, S13, HolderEmit);
    trace, steps := trace + [S13], steps + [HolderEmit];
    Step13();
    Continue(trace, steps, S13, S14, PickStep);
    trace, steps := trace + [S14], steps + [PickStep];
  }

  /** The run ends with every process settled, the operations lock free, and the
      supervisor not idle: its initial start has given up. */
  lemma CompletionCanBeMissed() returns (trace: seq<Sys>, steps: seq<Step>)
    ensures Trace(Example, trace, steps) && |trace| == 21 && |steps| == 20 && Missed(trace, steps, 20)
    ensures trace[20].holder.Free? && Began(trace[20]) && AllDone(trace[20].core) && !trace[20].core.idle
  {
    hide Next, Init, Trace, GivesUp, AllDone, Missed;
    trace, steps := StartFails();
    Step14();
    Continue(trace, steps, S14, S15, SkipStep);
    trace, steps := trace + [S15], steps + [SkipStep];
    Step15();
    Continue(trace, steps, S15, S16, HolderEmit);
    trace, steps := trace + [S16], steps + [HolderEmit];
    Step16();
    Continue(trace, steps, S16, S17, HolderEmit);
    trace, steps := trace + [S17], steps + [HolderEmit];
    Step17();
    Continue(trace, steps, S17, S18, ContextCancel);
    trace, steps := trace + [S18], steps + [ContextCancel];
    Step18();
    Continue(trace, steps, S18, S19, InitialEndStep);
    trace, steps := trace + [S19], steps + [InitialEndStep];
    Step19();
    Continue(trace, steps, S19, S20, ReturnStep);
    trace, steps := trace + [S20], steps + [ReturnStep];
    GaveUp();
    MissedAtEnd(trace, steps);
  }
}
