/** The value types shared by the loop façade and its backend: callback kinds,
    identifiers, errors, and the outcome of driving the loop.

    Closures are not values the verifier can run, so a callback's work is a
    script: the i-th time it is called it performs `steps[i].effects` and
    returns `steps[i].again` (the boolean an interval callback returns). */
module CallbackKinds {

  /** A duration carried opaquely (milliseconds); nothing here interprets it. */
  type Duration = nat

  /** The identifier a backend hands out for a registered callback. */
  datatype CbId = CbId(index: nat)

  datatype MainLoopError =
    | NoMainLoop       // an ambient call found no loop registered on the thread
    | BackendRejected  // the backend refused a registration

  datatype Result<T> = Ok(value: T) | Err(error: MainLoopError)

  /** What a callback does to the loop façade while it runs. */
  datatype Effect =
    | Terminate          // calls the ambient `terminate()`
    | Submit(kind: CbKind) // calls the ambient `call_internal(kind)`
    | Crash              // panics
    | NestedRunOne       // creates a second loop and calls `run_one` on it
  {
    /** The effect unwinds out of the callback. */
    predicate Faults() { Crash? || NestedRunOne? }
  }

  /** One call of a callback: what it does, and (for intervals) whether it asks to be re-armed. */
  datatype Step = Step(effects: seq<Effect>, again: bool)

  /** A scripted closure; `tag` lets a run's log tell callbacks apart. */
  datatype Work = Work(tag: nat, steps: seq<Step>)
  {
    /** What the next call does; a script that has run out does nothing and returns false. */
    function Next(): Step {
      if steps == [] then Step([], false) else steps[0]
    }

    /** The closure after one call. */
    function Rest(): Work {
      Work(tag, if steps == [] then [] else steps[1..])
    }
  }

  /** `CbKind::asap`, `CbKind::after` and `CbKind::interval`. */
  datatype CbKind =
    | Asap(work: Work)
    | After(work: Work, delay: Duration)
    | Interval(work: Work, period: Duration)

  /** Why a call of `run`/`run_one` unwound. */
  datatype Panic =
    | Reentrant        // "Reentrant call to MainLoop"
    | CallbackPanicked // a callback panicked

  /** How a call that drives the loop ended. `OutOfFuel` only arises from the
      iteration bound that stands in for `run`'s unbounded loop. */
  datatype Outcome = Done | Fault(panic: Panic) | OutOfFuel
}
