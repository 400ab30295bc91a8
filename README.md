# thin_main_loop: the `MainLoop` façade

`thin_main_loop` is a small cross-platform main loop. Its façade is a
`MainLoop` that owns a platform backend and a termination flag. Callbacks are
queued on the backend through `call_asap`, `call_after` and `call_interval`,
and `run` or `run_one` drives the backend. While a loop runs, it is recorded in
a thread-local `current_loop` cell. Through that cell, code running inside a
callback can reach the loop with the ambient functions `call_internal`
(submit another callback) and `terminate` (quit the running loop). Running a
loop while another one is registered on the thread panics with "Reentrant call
to MainLoop"; that panic leaves the cell as it was, holding the other loop.
A terminated loop returns at once without touching the cell. Once a loop has
registered itself, the cell is cleared on every exit, a panic included, before
that panic is allowed to continue.

The project has three layers:

- `kinds.dfy` (`CallbackKinds`) holds the values. These are callback kinds,
  identifiers, errors, the `Effect`s a callback performs, and the `Outcome` of
  a call that drives the loop; a panic is `Fault(...)`. A Rust closure becomes
  a script (`Work`): on its i-th call it performs `steps[i].effects` and
  returns `steps[i].again`, the boolean an interval callback returns.
- `model.dfy` (`LoopModel`) is the specification, written as functions on
  values. It covers:
  - `Push` (the backend's registration);
  - `Perform` (a callback body using the ambient API);
  - `Iterate` (one backend iteration);
  - `RunLoop` and `RunOnce` (the closures `run` and `run_one` hand over);
  - `WithCurrentLoop`.
- `mainloop.dfy` (`MainLoops`) is the imperative model:
  - the `Registry` class (the `current_loop` cell);
  - the `MainLoop` class with its `terminated` field and its `backend`;
  - the free methods `CallInternal` and `Terminate`;
  - a stand-in `Backend` class.

  Every method that drives the loop or registers a callback is proved to
  produce exactly the state and outcome that the specification gives for the
  state before the call. `Quit`, `Terminate` and the empty-cell case of
  `CallInternal` state their results directly, under exact frames. A callback's nested
  `run_one` really calls `MainLoop.RunOne` on a second loop, so reentrancy is
  checked on the real code path.

Two more files state properties:

- `properties.dfy` (`LoopProperties`) states what callers of `run` and
  `run_one` can rely on, and an invariant: only registered callbacks are ever
  pending or invoked.
- `scenarios.dfy` (`Scenarios`) replays the source's unit tests. Each test
  becomes a lemma that computes the specification's answer, plus a client
  method that drives the classes to the same answer.

The platform backends (glib, win32, the std-thread one) are not part of this
model. `Backend` stands in for them:

- `push` queues the kind and returns the next identifier.
- `run_one(blocking)` invokes, in registration order, every callback that was
  pending when it began.
- An interval is queued again when its call returns true.
- A panic inside a callback stops the iteration. The callbacks not yet invoked
  stay pending.

## Model

| member | source | states |
|---|---|---|
| MainLoops.MainLoop.constructor | src/mainloop.rs:91-95 | `new` yields a loop that is not terminated and owns a fresh backend with nothing registered |
| MainLoops.Backend.constructor | src/mainloop.rs:93 | `Backend::new()` starts with nothing pending, no identifiers handed out and empty logs |
| MainLoops.Registry.constructor | src/mainloop.rs:35-37 | the thread-local `current_loop` cell starts empty (`Default::default()` of an `Option`) |
| MainLoops.MainLoop.Quit | src/mainloop.rs:48 | after `quit` the loop is terminated whatever it was before; only the flag may change, so calling it again changes nothing |
| MainLoops.MainLoop.CallAsap | src/mainloop.rs:49-51 | pushes exactly one `asap` kind onto this loop's backend and returns the backend's reply unchanged |
| MainLoops.MainLoop.CallAfter | src/mainloop.rs:52-54 | pushes exactly one `after` kind carrying the given duration and returns the backend's reply unchanged |
| MainLoops.MainLoop.CallInterval | src/mainloop.rs:55-57 | pushes exactly one `interval` kind carrying the given duration and returns the backend's reply unchanged |
| MainLoops.Backend.Push | src/mainloop.rs:22 | `push` appends the kind to the pending queue and to the registration log, and answers `Ok` with the next identifier |
| MainLoops.CallInternal | src/mainloop.rs:18-24 | with the cell empty the answer is `Err(NoMainLoop)` and nothing changes; otherwise it is exactly the registered loop's `push` |
| MainLoops.Terminate | src/mainloop.rs:26-33 | with the cell empty nothing changes (the frame is empty); otherwise the registered loop, and nothing else, becomes terminated |
| MainLoops.Invoke | src/mainloop.rs:18-33 | a callback body runs its effects in order through `terminate` and `call_internal` on the registered loop, and stops at the first panic; the result equals `LoopModel.Perform` |
| LoopModel.Perform | src/mainloop.rs:18-33 | the ambient calls a callback makes never clear the flag, only ever push onto the registered loop's backend, and the body returns normally exactly when none of its effects panics |
| MainLoops.Backend.RunOne | src/mainloop.rs:76 | one iteration of the stand-in backend ends in the state and outcome `LoopModel.Iterate` gives, and the registered loop does not change |
| LoopModel.Iterate | src/mainloop.rs:76 | one iteration of the stand-in backend, where every pending callback counts as due, logs its `blocking` flag, returns normally exactly when every callback pending at its start returns normally, and then has invoked exactly those callbacks, in order |
| MainLoops.MainLoop.WithCurrentLoop | src/mainloop.rs:59-70 | the cell is the same after the call as before on every exit path, a fault included; the state and outcome are those of `LoopModel.WithCurrentLoop` |
| LoopModel.WithCurrentLoop | src/mainloop.rs:59-70 | a terminated loop returns at once with nothing changed; an occupied cell gives the reentrancy fault with nothing changed; otherwise the body's result, a fault included, is the call's result |
| MainLoops.MainLoop.Execute | src/mainloop.rs:74-87 | with this loop registered, the closure of `run` or `run_one` ends as `LoopModel.RunBody` says, and the cell still holds this loop |
| LoopModel.RunLoop | src/mainloop.rs:75-77 | the `while !terminated` loop returns normally only once terminated, asks only for blocking iterations (at most one per unit of fuel) and never drops a log entry |
| LoopModel.RunOnce | src/mainloop.rs:84-86 | on a terminated loop nothing changes; otherwise exactly one non-blocking iteration is asked for |
| MainLoops.MainLoop.Run | src/mainloop.rs:73-79 | `run` ends as the specification says, leaves the cell as it found it, and returns normally only on a terminated loop |
| MainLoops.MainLoop.RunOne | src/mainloop.rs:82-88 | `run_one` ends as the specification says and leaves the cell as it found it |
| LoopProperties.RunOneContract | src/mainloop.rs:82-88 | `run_one` on a terminated loop or with the cell occupied touches no backend; otherwise it makes exactly one non-blocking iteration. Over the stand-in backend, where every pending callback counts as due, that iteration returns normally exactly when every pending callback does, and it has then invoked them all in order |
| LoopProperties.RunContract | src/mainloop.rs:73-79 | `run` returns normally only when terminated; a terminated loop or an occupied cell touches no backend; otherwise only blocking iterations are asked for |
| LoopProperties.PendingRunBeforeRunReturns | src/mainloop.rs:73-79 | over the stand-in backend, where every pending callback counts as due: when `run` on a live loop returns normally, every callback pending at the start has been invoked, in registration order |
| LoopProperties.CallbackFaultPropagates | src/mainloop.rs:65-69 | a callback that panics in any iteration of `run` makes `run` panic too, ending exactly as that iteration ended: the fault is re-raised, not swallowed. The callback may have been pending at the start, submitted by an earlier callback, or re-armed |
| LoopProperties.OnlyRegisteredCallbacksRun | src/mainloop.rs:73-88 | driving the loop keeps the invariant that every pending or invoked callback carries the tag of a callback registered through `push` (tags identify callbacks, and need not be distinct) |
| LoopProperties.NewLoopAccounted | src/mainloop.rs:49-57 | a new loop satisfies that tag invariant, and every registration keeps it |
| Scenarios.StopperRun | src/mainloop.rs:99-109 | one `asap` or `after` callback that calls `terminate` is invoked once, in one blocking iteration, and `run` returns normally on a terminated loop |
| Scenarios.Borrowed | src/mainloop.rs:99-109 | the `borrowed` test: `run` returns normally, the loop is terminated and the callback ran once |
| Scenarios.AfterTest | src/mainloop.rs:132-143 | the `after` test: the delayed callback runs once, terminates the loop, and `run` returns normally |
| Scenarios.SubmitterFirst | src/mainloop.rs:119-127 | the first iteration invokes a callback that submits another through `call_internal`; the submitted one is queued and waits for the next iteration |
| Scenarios.AsapStaticRun | src/mainloop.rs:111-130 | in `asap_static`, the outer callback runs in the first iteration and queues the inner one through `call_internal`; the inner one runs in the second iteration and terminates the loop |
| Scenarios.AsapStatic | src/mainloop.rs:111-130 | the `asap_static` test on the classes: `run` returns normally after invoking the outer and then the inner callback |
| Scenarios.IntervalRun | src/mainloop.rs:145-167 | in `interval` over the stand-in backend, the 150 ms interval fires once and is dropped; the 100 ms interval fires four times and terminates the loop, after four blocking iterations |
| Scenarios.IntervalTest | src/mainloop.rs:145-167 | the `interval` test on the classes: `run` returns normally, with one call of the first interval and four of the second |
| Scenarios.SubmittedPanicRun | src/mainloop.rs:65-69 | a callback submitted through `call_internal` during `run` that panics in the second iteration makes `run` unwind with that panic |
| Scenarios.SubmittedPanic | src/mainloop.rs:65-69 | the same on the classes: `run` ends with the callback's panic |
| Scenarios.NestedRun | src/mainloop.rs:62 | a callback that runs a second loop gets the reentrancy fault, and the outer `run` propagates it |
| Scenarios.ReentrantThenFresh | src/mainloop.rs:59-70 | after the reentrancy fault propagates out of `run`, the cell is empty again, and a fresh loop runs normally |
| Scenarios.QuitBeforeRun | src/mainloop.rs:60 | a loop quit (twice) before `run` returns at once, invoking nothing and asking the backend for no iteration |
| Scenarios.NoLoopRunning | src/mainloop.rs:18-33 | with no loop running, `terminate` does nothing and `call_internal` reports `NoMainLoop` |

## Left out

- Platform backends: glib, win32 and the std-thread backend are not part of this model. `Backend` is a stand-in queue with the policy described above.
- Timers and durations: the delays of `after` and `interval` are kept as values but never interpreted. Every pending callback counts as due, so an `after` callback behaves like an `asap` one. A real backend's iteration invokes only what is due: `run_one(false)` does not run a callback whose delay has not passed, and `run` may return before a long-delayed callback fires. So `PendingRunBeforeRunReturns` and the clause of `RunOneContract` that says every pending callback was invoked hold of the stand-in backend only. For a real backend, only the fact that every pending `asap` callback is invoked carries over, in an order the backend decides.
- Blocking: `run_one(true)` does not wait; the `blocking` flag is only logged.
- `run`'s unbounded loop is bounded by a `fuel` count of backend iterations. Running out of fuel is the outcome `OutOfFuel`, which the source cannot produce.
- Panics are not unwound. A panic is the outcome `Fault(...)` that travels back through the callers, so the clean-up that `with_current_loop` does before `resume_unwind` happens on the path that returns the fault.
- `BackendRejected`: the stand-in backend never refuses a registration, so the error reply of a real backend's `push` is not produced. `call_*` still return whatever `push` answered.
- Closures are scripts of effects. A closure's private state (the counters of the tests) is replaced by its script position, and the tests' internal `assert_eq!` calls by the logs of invoked tags.
- A nested `run`/`run_one` from a callback is modelled only as `run_one` on a freshly created loop. This is enough to reach the reentrancy check; the nested call panics before it does anything else.
- Unsafe pointers, lifetimes and `PhantomData`: the `NonNull` cast, the `'a` lifetime of borrowed closures and the `!Send`/`!Sync` marker have no counterpart. One thread is modelled, so the thread-local cell is a single `Registry` passed to every operation that consults it.
- AfterTest: the test's assertion that at least 300 ms elapsed is not modelled, because there is no clock.
- IntervalRun: each iteration invokes every due callback in registration order, so the 150 ms interval is logged before the 100 ms one. Real timers would fire the 100 ms interval first. The test checks only the call counts (one and four), and those are what is proved. The test's 400 ms elapsed-time assertion is not modelled. With real timers the test takes five blocking iterations, at 100, 150, 200, 300 and 400 ms; the model takes four, because both intervals are due in the first.
- IntervalTest: same ordering and elapsed-time caveat as IntervalRun.
