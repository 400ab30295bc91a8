/** Properties of the loop specification that relate several of its steps:
    what `run` and `run_one` promise their callers, and that the backend only
    ever invokes callbacks that were registered with it. */
module LoopProperties {
  import opened CallbackKinds
  import opened LoopModel

  /** `run_one` on a terminated loop returns at once; with another loop
      registered it unwinds before touching the backend; otherwise it makes
      exactly one non-blocking backend iteration, which invokes everything that
      was pending, and it returns normally exactly when none of those
      callbacks unwinds. */
  lemma RunOneContract(l: LoopState, occupied: bool)
    ensures var c := WithCurrentLoop(l, occupied, Once);
      && (l.terminated ==> c == Completion(l, Done))
      && (!l.terminated && occupied ==> c == Completion(l, Fault(Reentrant)))
      && c.loop.backend.runs == l.backend.runs + (if l.terminated || occupied then [] else [false])
      && (!l.terminated && !occupied ==>
            (c.outcome.Done? <==> forall k :: k in l.backend.pending ==> Quiet(k)))
      && (!l.terminated && c.outcome.Done? ==>
            c.loop.backend.fired == l.backend.fired + Tags(l.backend.pending))
  {
  }

  /** `run` returns normally only on a terminated loop, never clears the
      flag, and asks the backend only for blocking iterations, at most one
      per unit of fuel; a terminated loop or an occupied registry leaves the
      backend alone. */
  lemma RunContract(l: LoopState, occupied: bool, fuel: nat)
    ensures var c := WithCurrentLoop(l, occupied, Forever(fuel));
      && (c.outcome.Done? ==> c.loop.terminated)
      && (l.terminated ==> c == Completion(l, Done))
      && (!l.terminated && occupied ==> c == Completion(l, Fault(Reentrant)))
      && l.backend.runs <= c.loop.backend.runs
      && |c.loop.backend.runs| <= |l.backend.runs| + fuel
      && (forall i :: |l.backend.runs| <= i < |c.loop.backend.runs| ==> c.loop.backend.runs[i])
  {
  }

  /** Every callback pending when `run` starts on a live loop is invoked, in
      registration order, before `run` returns normally. */
  lemma {:induction false} PendingRunBeforeRunReturns(l: LoopState, fuel: nat)
    requires !l.terminated
    ensures var c := WithCurrentLoop(l, false, Forever(fuel));
      c.outcome.Done? ==> l.backend.fired + Tags(l.backend.pending) <= c.loop.backend.fired
  {
    if fuel > 0 {
      var first := Iterate(l, true);
      if first.outcome.Done? {
        assert RunLoop(l, fuel) == RunLoop(first.loop, fuel - 1);
      }
    }
  }

  /** The loop after `n` blocking backend iterations of `run`. */
  function Steps(l: LoopState, n: nat): LoopState
    decreases n
  {
    if n == 0 then l else Steps(Iterate(l, true).loop, n - 1)
  }

  /** The first `n` iterations of `run` all start on a live loop and return normally. */
  predicate Proceeds(l: LoopState, n: nat)
    decreases n
  {
    n == 0 || (!l.terminated && Iterate(l, true).outcome.Done? && Proceeds(Iterate(l, true).loop, n - 1))
  }

  /** A callback that unwinds in any iteration of `run` makes `run` unwind
      too, ending exactly as that iteration ended: the fault is propagated,
      not swallowed. The callback need not have been pending when `run`
      started: it may have been submitted, or re-armed, by an earlier one. */
  lemma {:induction false} CallbackFaultPropagates(l: LoopState, fuel: nat, n: nat, k: CbKind)
    requires n < fuel && Proceeds(l, n) && !Steps(l, n).terminated
    requires k in Steps(l, n).backend.pending && !Quiet(k)
    ensures var c := WithCurrentLoop(l, false, Forever(fuel));
      c.outcome.Fault? && c == Iterate(Steps(l, n), true)
    decreases n
  {
    if n == 0 {
      assert !Iterate(l, true).outcome.Done?;
    } else {
      var first := Iterate(l, true);
      assert RunLoop(l, fuel) == RunLoop(first.loop, fuel - 1);
      CallbackFaultPropagates(first.loop, fuel - 1, n - 1, k);
    }
  }

  /** The tags of the callbacks pushed onto a backend. */
  ghost function PushedTags(b: BackendState): set<nat>
  {
    set k | k in b.pushed :: k.work.tag
  }

  /** Everything pending or already invoked came from a `push`. */
  ghost predicate Accounted(b: BackendState)
  {
    && (forall k :: k in b.pending ==> k.work.tag in PushedTags(b))
    && (forall t :: t in b.fired ==> t in PushedTags(b))
  }

  lemma PushedTagsGrow(a: BackendState, b: BackendState)
    requires a.pushed <= b.pushed
    ensures PushedTags(a) <= PushedTags(b)
  {
    forall t | t in PushedTags(a) ensures t in PushedTags(b) {
      var k :| k in a.pushed && k.work.tag == t;
      assert k in b.pushed;
    }
  }

  lemma PushAccounted(b: BackendState, k: CbKind)
    requires Accounted(b)
    ensures Accounted(Push(b, k).backend)
    ensures k.work.tag in PushedTags(Push(b, k).backend)
  {
    var b' := Push(b, k).backend;
    PushedTagsGrow(b, b');
    assert k in b'.pushed;
  }

  lemma {:induction false} PerformAccounted(l: LoopState, effects: seq<Effect>)
    requires Accounted(l.backend)
    ensures Accounted(Perform(l, effects).loop.backend)
    decreases |effects|
  {
    if effects != [] {
      match effects[0]
      case Terminate =>
        PerformAccounted(l.(terminated := true), effects[1..]);
      case Submit(k) =>
        PushAccounted(l.backend, k);
        PerformAccounted(l.(backend := Push(l.backend, k).backend), effects[1..]);
      case Crash =>
      case NestedRunOne =>
    }
  }

  lemma FireAccounted(l: LoopState, k: CbKind)
    requires Accounted(l.backend) && k.work.tag in PushedTags(l.backend)
    ensures Accounted(Fire(l, k).loop.backend)
  {
    var logged := l.(backend := l.backend.(fired := l.backend.fired + [k.work.tag]));
    assert PushedTags(logged.backend) == PushedTags(l.backend);
    PerformAccounted(logged, k.work.Next().effects);
    var c := Perform(logged, k.work.Next().effects);
    PushedTagsGrow(logged.backend, c.loop.backend);
  }

  lemma {:induction false} DrainAccounted(l: LoopState, due: seq<CbKind>)
    requires Accounted(l.backend)
    requires forall k :: k in due ==> k.work.tag in PushedTags(l.backend)
    ensures Accounted(Drain(l, due).loop.backend)
    decreases |due|
  {
    if due != [] {
      assert due[0] in due;
      FireAccounted(l, due[0]);
      var c := Fire(l, due[0]);
      PushedTagsGrow(l.backend, c.loop.backend);
      if c.outcome.Fault? {
        var b := c.loop.backend;
        var b' := b.(pending := due[1..] + b.pending);
        assert PushedTags(b') == PushedTags(b);
        forall k | k in b'.pending ensures k.work.tag in PushedTags(b') {
          if k in due[1..] {
            assert k in due;
          }
        }
      } else {
        forall k | k in due[1..] ensures k.work.tag in PushedTags(c.loop.backend) {
          assert k in due;
        }
        DrainAccounted(c.loop, due[1..]);
      }
    }
  }

  lemma IterateAccounted(l: LoopState, blocking: bool)
    requires Accounted(l.backend)
    ensures Accounted(Iterate(l, blocking).loop.backend)
  {
    var b := l.backend.(pending := [], runs := l.backend.runs + [blocking]);
    assert PushedTags(b) == PushedTags(l.backend);
    DrainAccounted(l.(backend := b), l.backend.pending);
  }

  lemma {:induction false} RunLoopAccounted(l: LoopState, fuel: nat)
    requires Accounted(l.backend)
    ensures Accounted(RunLoop(l, fuel).loop.backend)
    decreases fuel
  {
    if !l.terminated && fuel > 0 {
      IterateAccounted(l, true);
      var c := Iterate(l, true);
      if !c.outcome.Fault? {
        RunLoopAccounted(c.loop, fuel - 1);
      }
    }
  }

  /** Driving the loop, by `run` or by `run_one`, only ever invokes callbacks
      that were registered through `push`, and leaves only such callbacks
      pending. */
  lemma OnlyRegisteredCallbacksRun(l: LoopState, occupied: bool, body: Body)
    requires Accounted(l.backend)
    ensures Accounted(WithCurrentLoop(l, occupied, body).loop.backend)
  {
    if !l.terminated && !occupied {
      match body
      case Forever(fuel) => RunLoopAccounted(l, fuel);
      case Once => IterateAccounted(l, false);
    }
  }

  /** A new loop satisfies the invariant, and registrations keep it. */
  lemma NewLoopAccounted(b: BackendState, k: CbKind)
    ensures Accounted(NewLoop.backend)
    ensures Accounted(b) ==> Accounted(Push(b, k).backend)
  {
    if Accounted(b) {
      PushAccounted(b, k);
    }
  }
}
