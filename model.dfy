/** The specification of one main loop and its backend as values.

    `LoopState` is what the façade can observe of a `MainLoop`: its termination
    flag and the state of its backend (pending callbacks and three logs: every
    kind pushed, the `blocking` flag of every backend iteration, and the tag
    of every callback invoked). The functions below say what each step of the
    façade does to that state; the imperative classes are proved against them.

    The backend is a stand-in for the platform backends, which are not part of
    this model: `push` queues the kind and hands out the next identifier, and
    one iteration invokes, in registration order, every callback that was
    pending when the iteration began (callbacks submitted meanwhile wait for
    the next iteration); an interval is re-armed when its call returns true.
    Timers are not modelled, so every pending callback counts as due. */
module LoopModel {
  import opened CallbackKinds

  datatype BackendState = BackendState(
    pending: seq<CbKind>,
    nextId: nat,
    pushed: seq<CbKind>,
    runs: seq<bool>,
    fired: seq<nat>)

  datatype LoopState = LoopState(terminated: bool, backend: BackendState)

  /** The backend after a `push`, and what the push returned. */
  datatype Pushed = Pushed(backend: BackendState, reply: Result<CbId>)

  /** The loop after a call that drives it, and how that call ended. */
  datatype Completion = Completion(loop: LoopState, outcome: Outcome)

  /** The closure `with_current_loop` runs: `run`'s loop (bounded by `fuel`
      backend iterations) or `run_one`'s single iteration. */
  datatype Body = Forever(fuel: nat) | Once

  /** A backend in its default state: nothing registered, nothing logged. */
  const EmptyBackend := BackendState([], 0, [], [], [])

  /** What `MainLoop::new` yields. */
  const NewLoop := LoopState(false, EmptyBackend)

  /** The tags of a sequence of callbacks, in order. */
  function Tags(ks: seq<CbKind>): (r: seq<nat>)
    ensures |r| == |ks|
  {
    if ks == [] then [] else [ks[0].work.tag] + Tags(ks[1..])
  }

  /** The callback's next call returns normally, without unwinding. */
  predicate Quiet(k: CbKind)
  {
    forall e :: e in k.work.Next().effects ==> !e.Faults()
  }

  /** The backend's `push`: queue the kind and hand out the next identifier. */
  function Push(b: BackendState, k: CbKind): (p: Pushed)
  {
    Pushed(b.(pending := b.pending + [k], nextId := b.nextId + 1, pushed := b.pushed + [k]),
           Ok(CbId(b.nextId)))
  }

  /** A callback body running while this loop is registered: `terminate()`
      quits this loop, `call_internal(k)` pushes onto this loop's backend, a
      panic or a nested `run_one` on a fresh loop unwinds out of the callback. */
  function Perform(l: LoopState, effects: seq<Effect>): (c: Completion)
    ensures l.terminated ==> c.loop.terminated
    ensures c.loop.backend.runs == l.backend.runs
    ensures c.loop.backend.fired == l.backend.fired
    ensures l.backend.pushed <= c.loop.backend.pushed
    ensures c.loop.backend.pending == l.backend.pending + c.loop.backend.pushed[|l.backend.pushed|..]
    ensures c.outcome != OutOfFuel
    ensures c.outcome.Done? <==> forall e :: e in effects ==> !e.Faults()
    decreases |effects|
  {
    if effects == [] then Completion(l, Done)
    else
      assert effects == [effects[0]] + effects[1..] && effects[0] in effects;
      match effects[0]
      case Terminate => Perform(l.(terminated := true), effects[1..])
      case Submit(k) => Perform(l.(backend := Push(l.backend, k).backend), effects[1..])
      case Crash => Completion(l, Fault(CallbackPanicked))
      case NestedRunOne => Completion(l, Fault(Reentrant))
  }

  /** The backend invokes one callback: log it, run its next step, and re-arm
      an interval whose call returned true. */
  function Fire(l: LoopState, k: CbKind): (c: Completion)
    ensures l.terminated ==> c.loop.terminated
    ensures c.loop.backend.runs == l.backend.runs
    ensures c.loop.backend.fired == l.backend.fired + [k.work.tag]
    ensures l.backend.pushed <= c.loop.backend.pushed
    ensures c.outcome != OutOfFuel
    ensures c.outcome.Done? <==> Quiet(k)
  {
    var step := k.work.Next();
    var logged := l.(backend := l.backend.(fired := l.backend.fired + [k.work.tag]));
    var c := Perform(logged, step.effects);
    if c.outcome.Done? && k.Interval? && step.again then
      var b := c.loop.backend;
      Completion(c.loop.(backend := b.(pending := b.pending + [Interval(k.work.Rest(), k.period)])), Done)
    else
      c
  }

  /** Invoke each of `due` in turn. A panic stops the iteration; the callbacks
      not yet invoked stay pending, ahead of anything queued meanwhile. */
  function Drain(l: LoopState, due: seq<CbKind>): (c: Completion)
    ensures l.terminated ==> c.loop.terminated
    ensures c.loop.backend.runs == l.backend.runs
    ensures l.backend.fired <= c.loop.backend.fired
    ensures l.backend.pushed <= c.loop.backend.pushed
    ensures c.outcome != OutOfFuel
    ensures c.outcome.Done? <==> forall k :: k in due ==> Quiet(k)
    ensures c.outcome.Done? ==> c.loop.backend.fired == l.backend.fired + Tags(due)
    decreases |due|
  {
    if due == [] then Completion(l, Done)
    else
      var c := Fire(l, due[0]);
      assert Tags(due) == [due[0].work.tag] + Tags(due[1..]);
      assert due == [due[0]] + due[1..] && due[0] in due;
      if c.outcome.Fault? then
        var b := c.loop.backend;
        Completion(c.loop.(backend := b.(pending := due[1..] + b.pending)), c.outcome)
      else
        Drain(c.loop, due[1..])
  }

  /** One step of `Drain`, for callers that follow it a callback at a time. */
  lemma DrainStep(l: LoopState, due: seq<CbKind>)
    requires due != []
    ensures var c := Fire(l, due[0]);
      Drain(l, due) == if c.outcome.Fault? then
        Completion(c.loop.(backend := c.loop.backend.(pending := due[1..] + c.loop.backend.pending)), c.outcome)
      else
        Drain(c.loop, due[1..])
  {
  }

  /** The backend's `run_one(blocking)`: log the call, then invoke everything
      that was pending when it began. */
  function Iterate(l: LoopState, blocking: bool): (c: Completion)
    ensures l.terminated ==> c.loop.terminated
    ensures c.loop.backend.runs == l.backend.runs + [blocking]
    ensures l.backend.fired <= c.loop.backend.fired
    ensures l.backend.pushed <= c.loop.backend.pushed
    ensures c.outcome != OutOfFuel
    ensures c.outcome.Done? <==> forall k :: k in l.backend.pending ==> Quiet(k)
    ensures c.outcome.Done? ==> c.loop.backend.fired == l.backend.fired + Tags(l.backend.pending)
  {
    var b := l.backend.(pending := [], runs := l.backend.runs + [blocking]);
    Drain(l.(backend := b), l.backend.pending)
  }

  /** `while !terminated { backend.run_one(true) }`, for at most `fuel` iterations. */
  function RunLoop(l: LoopState, fuel: nat): (c: Completion)
    ensures l.terminated ==> c == Completion(l, Done)
    ensures c.outcome.Done? ==> c.loop.terminated
    ensures c.outcome.OutOfFuel? ==> !c.loop.terminated
    ensures l.backend.fired <= c.loop.backend.fired
    ensures l.backend.pushed <= c.loop.backend.pushed
    ensures l.backend.runs <= c.loop.backend.runs
    ensures |c.loop.backend.runs| <= |l.backend.runs| + fuel
    ensures forall i :: |l.backend.runs| <= i < |c.loop.backend.runs| ==> c.loop.backend.runs[i]
    decreases fuel
  {
    if l.terminated then Completion(l, Done)
    else if fuel == 0 then Completion(l, OutOfFuel)
    else
      var c := Iterate(l, true);
      if c.outcome.Fault? then c else RunLoop(c.loop, fuel - 1)
  }

  /** `if !terminated { backend.run_one(false) }`. */
  function RunOnce(l: LoopState): (c: Completion)
    ensures l.terminated ==> c == Completion(l, Done)
    ensures c.loop.backend.runs == l.backend.runs + (if l.terminated then [] else [false])
    ensures c.outcome != OutOfFuel
  {
    if l.terminated then Completion(l, Done) else Iterate(l, false)
  }

  function RunBody(l: LoopState, body: Body): (c: Completion)
  {
    match body
    case Forever(fuel) => RunLoop(l, fuel)
    case Once => RunOnce(l)
  }

  /** `with_current_loop`: a terminated loop returns at once; an occupied
      registry makes the call unwind before anything is registered; otherwise
      the body runs with this loop registered and its outcome, a fault
      included, is what the call ends with once the registry is cleared. */
  function WithCurrentLoop(l: LoopState, occupied: bool, body: Body): (c: Completion)
    ensures l.terminated ==> c == Completion(l, Done)
    ensures !l.terminated && occupied ==> c == Completion(l, Fault(Reentrant))
    ensures !l.terminated && !occupied ==> c == RunBody(l, body)
  {
    if l.terminated then Completion(l, Done)
    else if occupied then Completion(l, Fault(Reentrant))
    else RunBody(l, body)
  }
}
