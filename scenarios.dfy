/** The behaviours the source's tests exercise, replayed on the model: each
    scenario is a lemma that computes the specification's answer and a client
    method that drives the imperative classes to the same answer. Timing is
    not modelled, so the delay and interval tests keep only their order and
    firing counts. */
module Scenarios {
  import opened CallbackKinds
  import opened LoopModel
  import MainLoops
  import LoopProperties

  /** A callback that calls `terminate()` once. */
  const Stopper := Work(1, [Step([Terminate], false)])

  /** An iteration with one callback pending fires just that callback. */
  lemma IterateSingle(l: LoopState, k: CbKind, blocking: bool)
    requires l.backend.pending == [k]
    ensures Iterate(l, blocking) == Fire(l.(backend := l.backend.(pending := [], runs := l.backend.runs + [blocking])), k)
  {
    var l' := l.(backend := l.backend.(pending := [], runs := l.backend.runs + [blocking]));
    assert [k][1..] == [];
    DrainStep(l', [k]);
    var c := Fire(l', k);
    assert [k][1..] + c.loop.backend.pending == c.loop.backend.pending;
  }

  /** A callback body made of one effect. */
  lemma PerformSingle(l: LoopState, e: Effect)
    ensures Perform(l, [e]) == match e
      case Terminate => Completion(l.(terminated := true), Done)
      case Submit(k) => Completion(l.(backend := Push(l.backend, k).backend), Done)
      case Crash => Completion(l, Fault(CallbackPanicked))
      case NestedRunOne => Completion(l, Fault(Reentrant))
  {
    assert [e][1..] == [];
  }

  /** `borrowed` and `after`: one `asap` or `after` callback that terminates
      the loop; `run` returns normally after invoking it once, in one blocking
      iteration. */
  lemma StopperRun(k: CbKind)
    requires k.work == Stopper && !k.Interval?
    ensures WithCurrentLoop(LoopState(false, Push(EmptyBackend, k).backend), false, Forever(1))
         == Completion(LoopState(true, BackendState([], 1, [k], [true], [1])), Done)
  {
    var l0 := LoopState(false, Push(EmptyBackend, k).backend);
    var logged := LoopState(false, BackendState([], 1, [k], [true], [1]));
    PerformSingle(logged, Terminate);
    assert Fire(LoopState(false, BackendState([], 1, [k], [true], [])), k)
        == Completion(logged.(terminated := true), Done);
    IterateSingle(l0, k, true);
    assert Iterate(l0, true) == Completion(logged.(terminated := true), Done);
  }

  method Borrowed() returns (o: Outcome, stopped: bool, ghost fired: seq<nat>)
    ensures o == Done && stopped && fired == [1]
  {
    var reg := new MainLoops.Registry();
    var ml := new MainLoops.MainLoop();
    var id := ml.CallAsap(Stopper);
    StopperRun(Asap(Stopper));
    o := ml.Run(1, reg);
    stopped := ml.terminated;
    fired := ml.backend.fired;
  }

  method AfterTest() returns (o: Outcome, stopped: bool, ghost fired: seq<nat>)
    ensures o == Done && stopped && fired == [1]
  {
    var reg := new MainLoops.Registry();
    var ml := new MainLoops.MainLoop();
    var id := ml.CallAfter(300, Stopper);
    StopperRun(After(Stopper, 300));
    o := ml.Run(1, reg);
    stopped := ml.terminated;
    fired := ml.backend.fired;
  }

  /** The callback `asap_static` submits from inside the first one. */
  const Inner := Asap(Work(2, [Step([Terminate], false)]))

  /** An `asap` callback whose one call submits `inner` through the ambient API. */
  function Submitter(inner: CbKind): CbKind
  {
    Asap(Work(1, [Step([Submit(inner)], false)]))
  }

  /** The first callback of `asap_static`. */
  const Outer := Submitter(Inner)

  /** The loop of `asap_static` before `run`, and after its first and second iterations. */
  const StaticStart := LoopState(false, BackendState([Outer], 1, [Outer], [], []))
  const StaticOne := LoopState(false, BackendState([Inner], 2, [Outer, Inner], [true], [1]))
  const StaticTwo := LoopState(true, BackendState([], 2, [Outer, Inner], [true, true], [1, 2]))

  /** The first iteration invokes a submitting callback, which queues `inner`
      behind it; `inner` waits for the next iteration. */
  lemma SubmitterFirst(inner: CbKind)
    ensures var outer := Submitter(inner);
      Iterate(LoopState(false, BackendState([outer], 1, [outer], [], [])), true)
        == Completion(LoopState(false, BackendState([inner], 2, [outer, inner], [true], [1])), Done)
  {
    var outer := Submitter(inner);
    var start := LoopState(false, BackendState([outer], 1, [outer], [], []));
    var before := LoopState(false, BackendState([], 1, [outer], [true], []));
    var logged := LoopState(false, BackendState([], 1, [outer], [true], [1]));
    PerformSingle(logged, Submit(inner));
    assert outer.work.Next().effects == [Submit(inner)] && !outer.Interval?;
    assert before.(backend := before.backend.(fired := before.backend.fired + [outer.work.tag])) == logged;
    assert Fire(before, outer) == Perform(logged, outer.work.Next().effects);
    IterateSingle(start, outer, true);
    assert start.(backend := start.backend.(pending := [], runs := [] + [true])) == before;
  }

  /** The second iteration invokes the inner callback, which terminates the loop. */
  lemma AsapStaticSecond()
    ensures Iterate(StaticOne, true) == Completion(StaticTwo, Done)
  {
    var before := LoopState(false, BackendState([], 2, [Outer, Inner], [true, true], [1]));
    var logged := LoopState(false, BackendState([], 2, [Outer, Inner], [true, true], [1, 2]));
    PerformSingle(logged, Terminate);
    assert Inner.work.Next().effects == [Terminate] && !Inner.Interval?;
    assert before.(backend := before.backend.(fired := before.backend.fired + [Inner.work.tag])) == logged;
    assert Fire(before, Inner) == Perform(logged, Inner.work.Next().effects);
    IterateSingle(StaticOne, Inner, true);
    assert StaticOne.(backend := StaticOne.backend.(pending := [], runs := [true] + [true])) == before;
  }

  /** `asap_static`: the outer callback runs first and submits the inner one,
      which runs in the next iteration and terminates the loop. */
  lemma AsapStaticRun()
    ensures Push(EmptyBackend, Outer).backend == StaticStart.backend
    ensures WithCurrentLoop(StaticStart, false, Forever(2)) == Completion(StaticTwo, Done)
  {
    SubmitterFirst(Inner);
    AsapStaticSecond();
  }

  method AsapStatic() returns (o: Outcome, ghost fired: seq<nat>)
    ensures o == Done && fired == [1, 2]
  {
    var reg := new MainLoops.Registry();
    var ml := new MainLoops.MainLoop();
    var id := ml.CallAsap(Outer.work);
    AsapStaticRun();
    o := ml.Run(2, reg);
    fired := ml.backend.fired;
  }

  /** A callback that panics on its first call. */
  const Crasher := Asap(Work(2, [Step([Crash], false)]))

  /** A callback submitted during `run` that panics in the second iteration
      makes `run` unwind with that panic. */
  lemma SubmittedPanicRun()
    ensures var l := LoopState(false, Push(EmptyBackend, Submitter(Crasher)).backend);
      WithCurrentLoop(l, false, Forever(2)).outcome == Fault(CallbackPanicked)
  {
    var l := LoopState(false, Push(EmptyBackend, Submitter(Crasher)).backend);
    var one := LoopState(false, BackendState([Crasher], 2, [Submitter(Crasher), Crasher], [true], [1]));
    SubmitterFirst(Crasher);
    assert l == LoopState(false, BackendState([Submitter(Crasher)], 1, [Submitter(Crasher)], [], []));
    assert Iterate(l, true) == Completion(one, Done);
    assert LoopProperties.Steps(l, 1) == LoopProperties.Steps(one, 0) == one;
    assert LoopProperties.Proceeds(l, 1);
    assert Crash in Crasher.work.Next().effects;
    LoopProperties.CallbackFaultPropagates(l, 2, 1, Crasher);
    var before := LoopState(false, BackendState([], 2, [Submitter(Crasher), Crasher], [true, true], [1]));
    var logged := before.(backend := before.backend.(fired := [1, 2]));
    PerformSingle(logged, Crash);
    IterateSingle(one, Crasher, true);
    assert one.(backend := one.backend.(pending := [], runs := one.backend.runs + [true])) == before;
  }

  method SubmittedPanic() returns (o: Outcome)
    ensures o == Fault(CallbackPanicked)
  {
    var reg := new MainLoops.Registry();
    var ml := new MainLoops.MainLoop();
    var id := ml.CallAsap(Submitter(Crasher).work);
    SubmittedPanicRun();
    o := ml.Run(2, reg);
  }

  /** An interval whose call does nothing or only terminates, and asks to be re-armed. */
  ghost predicate Rearming(k: CbKind)
  {
    && k.Interval?
    && k.work.Next().again
    && (k.work.Next().effects == [] || k.work.Next().effects == [Terminate])
  }

  /** The backend state after invoking a `Rearming` callback. */
  function Rearmed(b: BackendState, k: CbKind): BackendState
    requires k.Interval?
  {
    b.(pending := b.pending + [Interval(k.work.Rest(), k.period)], fired := b.fired + [k.work.tag])
  }

  lemma FireRearming(l: LoopState, k: CbKind)
    requires Rearming(k)
    ensures Fire(l, k) == Completion(LoopState(l.terminated || k.work.Next().effects == [Terminate],
                                               Rearmed(l.backend, k)), Done)
  {
    var logged := l.(backend := l.backend.(fired := l.backend.fired + [k.work.tag]));
    if k.work.Next().effects == [] {
      assert Perform(logged, []) == Completion(logged, Done);
    } else {
      PerformSingle(logged, Terminate);
    }
  }

  /** An interval whose call does nothing and returns false is invoked once and dropped. */
  lemma FireFinal(l: LoopState, k: CbKind)
    requires k.Interval? && k.work.Next() == Step([], false)
    ensures Fire(l, k) == Completion(l.(backend := l.backend.(fired := l.backend.fired + [k.work.tag])), Done)
  {
    var logged := l.(backend := l.backend.(fired := l.backend.fired + [k.work.tag]));
    assert Perform(logged, []) == Completion(logged, Done);
  }

  /** The 150 ms interval of `interval`: returns false on its first call. */
  const Slow := Interval(Work(2, [Step([], false)]), 150)

  /** The 100 ms interval of `interval`, with `n` calls made: it re-arms
      itself every time and terminates the loop on its fourth call. */
  function Fast(n: nat): CbKind
    requires n <= 4
  {
    Interval(Work(1, [Step([], true), Step([], true), Step([], true), Step([Terminate], true)][n..]), 100)
  }

  /** The loop of `interval` after `n` blocking iterations. */
  function IntervalState(n: nat): LoopState
    requires 1 <= n <= 4
  {
    var runs := [true, true, true, true][..n];
    var fired := [2, 1, 1, 1, 1][..n + 1];
    LoopState(n == 4, BackendState([Fast(n)], 2, [Slow, Fast(0)], runs, fired))
  }

  /** The first iteration invokes both intervals; only the fast one is re-armed. */
  lemma IntervalFirst()
    ensures Iterate(LoopState(false, BackendState([Slow, Fast(0)], 2, [Slow, Fast(0)], [], [])), true)
         == Completion(IntervalState(1), Done)
  {
    var start := LoopState(false, BackendState([Slow, Fast(0)], 2, [Slow, Fast(0)], [], []));
    var l := LoopState(false, BackendState([], 2, [Slow, Fast(0)], [true], []));
    assert start.(backend := start.backend.(pending := [], runs := start.backend.runs + [true])) == l;
    assert Iterate(start, true) == Drain(l, [Slow, Fast(0)]);
    FireFinal(l, Slow);
    var l' := l.(backend := l.backend.(fired := [2]));
    assert Fire(l, Slow) == Completion(l', Done);
    DrainStep(l, [Slow, Fast(0)]);
    assert [Slow, Fast(0)][1..] == [Fast(0)];
    assert Drain(l, [Slow, Fast(0)]) == Drain(l', [Fast(0)]);
    assert Rearming(Fast(0)) && Fast(0).work.Rest() == Fast(1).work;
    FireRearming(l', Fast(0));
    assert [true, true, true, true][..1] == [true] && [2, 1, 1, 1, 1][..2] == [2, 1];
    assert Rearmed(l'.backend, Fast(0)) == IntervalState(1).backend;
    assert Fire(l', Fast(0)) == Completion(IntervalState(1), Done);
    DrainStep(l', [Fast(0)]);
    assert [Fast(0)][1..] == [];
    assert Drain(l', [Fast(0)]) == Completion(IntervalState(1), Done);
  }

  /** Each later iteration invokes the fast interval alone and re-arms it. */
  lemma IntervalLater(n: nat)
    requires 1 <= n < 4
    ensures Iterate(IntervalState(n), true) == Completion(IntervalState(n + 1), Done)
  {
    IterateSingle(IntervalState(n), Fast(n), true);
    var l := IntervalState(n);
    var l' := l.(backend := l.backend.(pending := [], runs := l.backend.runs + [true]));
    assert Rearming(Fast(n)) && Fast(n).work.Rest() == Fast(n + 1).work;
    assert (Fast(n).work.Next().effects == [Terminate]) == (n == 3);
    FireRearming(l', Fast(n));
    assert [true, true, true, true][..n] + [true] == [true, true, true, true][..n + 1];
    assert [2, 1, 1, 1, 1][..n + 1] + [1] == [2, 1, 1, 1, 1][..n + 2];
  }

  /** `interval`: the 150 ms interval fires once and is dropped, the 100 ms one
      fires four times and terminates the loop, and `run` returns normally
      after four blocking iterations. */
  lemma IntervalRun()
    ensures Push(Push(EmptyBackend, Slow).backend, Fast(0)).backend
         == BackendState([Slow, Fast(0)], 2, [Slow, Fast(0)], [], [])
    ensures WithCurrentLoop(LoopState(false, BackendState([Slow, Fast(0)], 2, [Slow, Fast(0)], [], [])),
                            false, Forever(4))
         == Completion(IntervalState(4), Done)
  {
    IntervalLater(3);
    assert RunLoop(IntervalState(3), 1) == Completion(IntervalState(4), Done);
    IntervalLater(2);
    assert RunLoop(IntervalState(2), 2) == Completion(IntervalState(4), Done);
    IntervalLater(1);
    assert RunLoop(IntervalState(1), 3) == Completion(IntervalState(4), Done);
    IntervalFirst();
  }

  method IntervalTest() returns (o: Outcome, ghost fired: seq<nat>)
    ensures o == Done && fired == [2, 1, 1, 1, 1]
  {
    var reg := new MainLoops.Registry();
    var ml := new MainLoops.MainLoop();
    var y := ml.CallInterval(150, Slow.work);
    var x := ml.CallInterval(100, Fast(0).work);
    IntervalRun();
    o := ml.Run(4, reg);
    fired := ml.backend.fired;
  }

  /** A callback that calls `run_one` on a second, fresh loop. */
  const Nester := Asap(Work(1, [Step([NestedRunOne], false)]))

  /** The nested call unwinds with the reentrancy fault, which the outer `run` propagates. */
  lemma NestedRun()
    ensures WithCurrentLoop(LoopState(false, Push(EmptyBackend, Nester).backend), false, Forever(1))
         == Completion(LoopState(false, BackendState([], 1, [Nester], [true], [1])), Fault(Reentrant))
  {
    var logged := LoopState(false, BackendState([], 1, [Nester], [true], [1]));
    assert Perform(logged, [NestedRunOne]) == Completion(logged, Fault(Reentrant));
    assert Fire(LoopState(false, BackendState([], 1, [Nester], [true], [])), Nester)
        == Completion(logged, Fault(Reentrant));
  }

  /** A loop run from inside another loop's callback is refused; the fault
      leaves the registry empty, so a fresh loop then runs normally. */
  method ReentrantThenFresh() returns (first: Outcome, cleared: bool, second: Outcome)
    ensures first == Fault(Reentrant) && cleared && second == Done
  {
    var reg := new MainLoops.Registry();
    var ml := new MainLoops.MainLoop();
    var id := ml.CallAsap(Nester.work);
    NestedRun();
    first := ml.Run(1, reg);
    cleared := reg.current.None?;
    var next := new MainLoops.MainLoop();
    var id2 := next.CallAsap(Stopper);
    StopperRun(Asap(Stopper));
    second := next.Run(1, reg);
  }

  /** `quit` before `run`: `run` returns at once, invoking nothing and asking
      the backend for no iteration. */
  method QuitBeforeRun(fuel: nat) returns (o: Outcome, ghost fired: seq<nat>, ghost runs: seq<bool>)
    ensures o == Done && fired == [] && runs == []
  {
    var reg := new MainLoops.Registry();
    var ml := new MainLoops.MainLoop();
    var id := ml.CallAsap(Stopper);
    ml.Quit();
    ml.Quit();
    o := ml.Run(fuel, reg);
    fired, runs := ml.backend.fired, ml.backend.runs;
  }

  /** With no loop running, `terminate` does nothing and `call_internal` reports `NoMainLoop`. */
  method NoLoopRunning(k: CbKind) returns (r: Result<CbId>, empty: bool)
    ensures r == Err(NoMainLoop) && empty
  {
    var reg := new MainLoops.Registry();
    MainLoops.Terminate(reg);
    r := MainLoops.CallInternal(k, reg);
    empty := reg.current.None?;
  }
}
