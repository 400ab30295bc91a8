/** The loop façade: `MainLoop`, the thread-local current-loop registry, the
    ambient free functions `call_internal` and `terminate`, and the backend the
    loop drives. Every method that drives the loop or registers a callback is
    proved against the functions of `LoopModel`; `Quit`, `Terminate` and the
    empty-cell case of `CallInternal` state their results directly.

    One thread is modelled, so the thread-local `current_loop` cell is a single
    `Registry` object that every operation which consults it receives as a
    parameter. A panic is an `Outcome.Fault` handed back to the caller, which
    lets the clean-up that `with_current_loop` performs before re-raising be
    stated and checked. */
module MainLoops {
  import opened CallbackKinds
  import LoopModel

  datatype Option<T> = None | Some(value: T)

  /** The thread-local `current_loop` cell: empty, or the loop running on this thread. */
  class Registry {
    var current: Option<MainLoop>

    /** The cell's initial, default value. */
    constructor ()
      ensures current == None
    {
      current := None;
    }
  }

  /** The backend a `MainLoop` owns. The platform backends are not part of
      this model; this one queues callbacks and invokes the pending ones on
      each iteration, as `LoopModel` describes. The logs are ghost. */
  class Backend {
    var pending: seq<CbKind>
    var nextId: nat
    ghost var pushed: seq<CbKind>
    ghost var runs: seq<bool>
    ghost var fired: seq<nat>

    ghost function State(): LoopModel.BackendState
      reads this
    {
      LoopModel.BackendState(pending, nextId, pushed, runs, fired)
    }

    constructor ()
      ensures State() == LoopModel.EmptyBackend
    {
      pending, nextId := [], 0;
      pushed, runs, fired := [], [], [];
    }

    /** `push(kind)`: register one callback without running it. */
    method Push(k: CbKind) returns (r: Result<CbId>)
      modifies this
      ensures LoopModel.Pushed(State(), r) == LoopModel.Push(old(State()), k)
    {
      r := Ok(CbId(nextId));
      pending, nextId := pending + [k], nextId + 1;
      pushed := pushed + [k];
    }

    /** `run_one(blocking)`, called by the loop that owns this backend while
        that loop is registered. Blocking is only logged: without timers there
        is nothing to wait for. */
    method RunOne(blocking: bool, reg: Registry) returns (o: Outcome)
      requires reg.current.Some? && reg.current.value.backend == this
      modifies this, reg, reg.current.value
      decreases 0, 4
      ensures reg.current == old(reg.current)
      ensures LoopModel.Completion(reg.current.value.State(), o)
           == LoopModel.Iterate(old(reg.current.value.State()), blocking)
    {
      ghost var owner := reg.current.value;
      var due := pending;
      pending, runs := [], runs + [blocking];
      ghost var start := owner.State();
      var i := 0;
      while i < |due|
        invariant 0 <= i <= |due|
        invariant reg.current == Some(owner)
        invariant LoopModel.Drain(start, due) == LoopModel.Drain(owner.State(), due[i..])
      {
        assert due[i..][0] == due[i] && due[i..][1..] == due[i + 1..];
        LoopModel.DrainStep(owner.State(), due[i..]);
        o := Fire(due[i], reg);
        if o.Fault? {
          pending := due[i + 1..] + pending;
          return;
        }
        i := i + 1;
      }
      o := Done;
    }

    /** Invoke one callback and re-arm it if it is an interval that asked for it. */
    method Fire(k: CbKind, reg: Registry) returns (o: Outcome)
      requires reg.current.Some? && reg.current.value.backend == this
      modifies this, reg, reg.current.value
      decreases 0, 3
      ensures reg.current == old(reg.current)
      ensures LoopModel.Completion(reg.current.value.State(), o)
           == LoopModel.Fire(old(reg.current.value.State()), k)
    {
      fired := fired + [k.work.tag];
      var step := k.work.Next();
      o := Invoke(step.effects, reg);
      if o.Done? && k.Interval? && step.again {
        pending := pending + [Interval(k.work.Rest(), k.period)];
      }
    }
  }

  /** The body of a callback: its effects, performed in order, each through
      the ambient API a Rust closure would use. A panic, including the one a
      nested `run_one` raises, unwinds out of the callback at once. */
  method Invoke(effects: seq<Effect>, reg: Registry) returns (o: Outcome)
    requires reg.current.Some?
    modifies reg, reg.current.value, reg.current.value.backend
    decreases 0, 2
    ensures reg.current == old(reg.current)
    ensures LoopModel.Completion(reg.current.value.State(), o)
         == LoopModel.Perform(old(reg.current.value.State()), effects)
  {
    ghost var owner := reg.current.value;
    ghost var start := owner.State();
    var i := 0;
    while i < |effects|
      invariant 0 <= i <= |effects|
      invariant reg.current == Some(owner)
      invariant LoopModel.Perform(start, effects) == LoopModel.Perform(owner.State(), effects[i..])
      decreases |effects| - i
    {
      assert effects[i..][0] == effects[i] && effects[i..][1..] == effects[i + 1..];
      match effects[i] {
        case Terminate =>
          Terminate(reg);
        case Submit(k) =>
          var reply := CallInternal(k, reg);
        case Crash =>
          return Fault(CallbackPanicked);
        case NestedRunOne =>
          var other := new MainLoop();
          o := other.RunOne(reg);
          return;
      }
      i := i + 1;
    }
    o := Done;
  }

  /** `call_internal`: submit a callback to whichever loop is registered. */
  method CallInternal(k: CbKind, reg: Registry) returns (r: Result<CbId>)
    modifies if reg.current.Some? then {reg.current.value.backend} else {}
    ensures reg.current.None? ==> r == Err(NoMainLoop)
    ensures reg.current.Some? ==>
      LoopModel.Pushed(reg.current.value.backend.State(), r)
        == LoopModel.Push(old(reg.current.value.backend.State()), k)
  {
    match reg.current
    case None =>
      r := Err(NoMainLoop);
    case Some(ml) =>
      r := ml.backend.Push(k);
  }

  /** `terminate`: quit whichever loop is registered; with none, do nothing. */
  method Terminate(reg: Registry)
    modifies if reg.current.Some? then {reg.current.value} else {}
    ensures reg.current.Some? ==> reg.current.value.terminated
  {
    match reg.current
    case None =>
    case Some(ml) =>
      ml.Quit();
  }

  class MainLoop {
    var terminated: bool
    const backend: Backend

    ghost function State(): LoopModel.LoopState
      reads this, backend
    {
      LoopModel.LoopState(terminated, backend.State())
    }

    /** `MainLoop::new`: not terminated, with a fresh, empty backend. */
    constructor ()
      ensures fresh(backend)
      ensures State() == LoopModel.NewLoop
    {
      terminated := false;
      backend := new Backend();
    }

    /** `quit`: set the termination flag; nothing else changes. */
    method Quit()
      modifies this
      ensures terminated
    {
      terminated := true;
    }

    /** `call_asap`: push one `asap` kind and return the backend's reply unchanged. */
    method CallAsap(work: Work) returns (r: Result<CbId>)
      modifies backend
      ensures LoopModel.Pushed(backend.State(), r) == LoopModel.Push(old(backend.State()), Asap(work))
    {
      r := backend.Push(Asap(work));
    }

    /** `call_after`: push one `after` kind carrying `d`, return the backend's reply unchanged. */
    method CallAfter(d: Duration, work: Work) returns (r: Result<CbId>)
      modifies backend
      ensures LoopModel.Pushed(backend.State(), r) == LoopModel.Push(old(backend.State()), After(work, d))
    {
      r := backend.Push(After(work, d));
    }

    /** `call_interval`: push one `interval` kind carrying `d`, return the backend's reply unchanged. */
    method CallInterval(d: Duration, work: Work) returns (r: Result<CbId>)
      modifies backend
      ensures LoopModel.Pushed(backend.State(), r) == LoopModel.Push(old(backend.State()), Interval(work, d))
    {
      r := backend.Push(Interval(work, d));
    }

    /** `with_current_loop`: skip a terminated loop, refuse to nest, register
        this loop around the body, and clear the registry on every exit before
        handing back the body's outcome, a fault included. */
    method WithCurrentLoop(body: LoopModel.Body, reg: Registry) returns (o: Outcome)
      modifies this, backend, reg
      decreases if reg.current.None? then 1 else 0, 0
      ensures reg.current == old(reg.current)
      ensures LoopModel.Completion(State(), o)
           == LoopModel.WithCurrentLoop(old(State()), old(reg.current.Some?), body)
    {
      if terminated {
        return Done;
      }
      if reg.current.Some? {
        return Fault(Reentrant);
      }
      reg.current := Some(this);
      o := Execute(body, reg);
      reg.current := None;
    }

    /** The closures `run` and `run_one` hand to `with_current_loop`. */
    method Execute(body: LoopModel.Body, reg: Registry) returns (o: Outcome)
      requires reg.current == Some(this)
      modifies this, backend, reg
      decreases 0, 5
      ensures reg.current == old(reg.current)
      ensures LoopModel.Completion(State(), o) == LoopModel.RunBody(old(State()), body)
    {
      match body
      case Forever(fuel) =>
        ghost var start := State();
        var n := fuel;
        while !terminated
          invariant reg.current == Some(this)
          invariant LoopModel.RunLoop(start, fuel) == LoopModel.RunLoop(State(), n)
          decreases n
        {
          if n == 0 {
            return OutOfFuel;
          }
          o := backend.RunOne(true, reg);
          if o.Fault? {
            return;
          }
          n := n - 1;
        }
        o := Done;
      case Once =>
        if !terminated {
          o := backend.RunOne(false, reg);
        } else {
          o := Done;
        }
    }

    /** `run`: drive the loop until it is terminated (at most `fuel` backend iterations). */
    method Run(fuel: nat, reg: Registry) returns (o: Outcome)
      modifies this, backend, reg
      decreases if reg.current.None? then 1 else 0, 1
      ensures reg.current == old(reg.current)
      ensures LoopModel.Completion(State(), o)
           == LoopModel.WithCurrentLoop(old(State()), old(reg.current.Some?), LoopModel.Forever(fuel))
      ensures o.Done? ==> terminated
    {
      o := WithCurrentLoop(LoopModel.Forever(fuel), reg);
    }

    /** `run_one`: at most one non-blocking backend iteration. */
    method RunOne(reg: Registry) returns (o: Outcome)
      modifies this, backend, reg
      decreases if reg.current.None? then 1 else 0, 1
      ensures reg.current == old(reg.current)
      ensures LoopModel.Completion(State(), o)
           == LoopModel.WithCurrentLoop(old(State()), old(reg.current.Some?), LoopModel.Once)
    {
      o := WithCurrentLoop(LoopModel.Once, reg);
    }
  }
}
