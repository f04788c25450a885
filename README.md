# Countdown timer: validation, construction and the drift-corrected interval

This project models, in Dafny, the core of a countdown-timer library written
in TypeScript, and proves properties of that model. Two pieces are modelled.

- **The countdown timer object** (`src/classes/CountdownTimer.ts`, module
  `CountdownTimer`). The validator `getTimerCreationErrorMessage` is a pure
  function over an optional configuration. The class `CountdownTimerImpl` has
  a `const id` and mutable fields `startTime`, `currentTime` and `state`. The
  constructor either throws `CreateCountdownTimerError` or initialises the
  fields. Dafny constructors cannot fail, so the throwing constructor is the
  static method `Create`: it returns `Failure(error)` exactly when the
  validator has a message, and otherwise allocates the object through the
  Dafny constructor. `getInfo` is a function reading the fields. In this
  version `startTimer`, `pauseTimer` and `finishTimer` only log and return
  `this`, and the model proves they change nothing.
- **The worker's drift-corrected interval** (`src/workers/intervalScript.ts`,
  module `IntervalScript`). The module-level `timeoutId` and the host's timers
  form the class `IntervalWorker`. The closure built by `accurateSetInterval`
  (`startTime`, `counter`, `interval`) is the class `AccurateInterval`, and
  its inner function `main` is the method `Fire`. The clock `Date.now()` is
  the parameter `now`, in integer milliseconds. Calls into the host
  (`setTimeout`, `clearTimeout`, `postMessage(TICK)`) are appended to a log
  field, `calls`. Handles come from a counter field, `nextHandle`.
  `onmessage` is the method `OnMessage`.

The numeric helpers of `src/util/number.ts` are modelled over a JavaScript
number datatype `Num` (module `Number`): `Finite(v)` with an exact real `v`,
`NaN`, or an infinity. `IsInteger` is `Number.isInteger`, `IsPositiveNumber`
is the comparison `value >= 0` (so zero passes), and `Round` is `Math.round`.

Where the documented design and the code differ, the model follows the code:
- The timer has no transition table, ticking, events or reset. The lifecycle
  methods are stubs, and `state` is always `Idle`.
- `getInfo` returns `state`, `currentTime` and `startTime`. It does not
  return the identity.
- The delay computed in `main` is never clamped: a late invocation can arm a
  negative delay. The host treats such a delay as zero, but the code itself
  does not.

## Model

| member | source | states |
|---|---|---|
| `Number.Round` | src/util/number.ts:7 | rounding a finite value gives an integer within one half of it; an integral value is returned unchanged, as are `NaN` and the infinities |
| `Number.ConvertToInteger` | src/util/number.ts:5-15 | throws exactly for `NaN`, and returns an integral input unchanged |
| `CountdownTimer.GetTimerCreationErrorMessage` | src/classes/CountdownTimer.ts:12-28 | a missing configuration gives the configuration message; a missing, non-integral or negative `startTime` gives the start-time message; the result is absent exactly when the configuration is present with a valid start time; every message is non-empty, so it is truthy exactly when present |
| `CountdownTimer.AcceptsEveryNatural` | src/classes/CountdownTimer.ts:17-27 | every non-negative integer start time is accepted, zero included |
| `CountdownTimer.AcceptedIsNatural` | src/classes/CountdownTimer.ts:19-27 | an accepted start time is present, finite, integral and non-negative |
| `CountdownTimer.RejectsInvalidStartTimes` | src/classes/CountdownTimer.ts:19-25 | a negative integer, a fraction, `NaN`, an infinity and a missing `startTime` each get the start-time message |
| `CountdownTimer.Construct` | src/classes/CountdownTimer.ts:36-49 | construction fails exactly when the validator has a message, and the error carries that message; on success the snapshot is `Idle` with `currentTime == startTime ==` the configured start time |
| `CountdownTimer.CountdownTimerImpl.constructor` | src/classes/CountdownTimer.ts:43-48 | sets `id` to the given identity and the fields to the snapshot `Construct` describes: `Idle`, with `currentTime` the rounded start time, equal to `startTime` |
| `CountdownTimer.CountdownTimerImpl.Create` | src/classes/CountdownTimer.ts:36-41 | throws `CreateCountdownTimerError` exactly when the validator has a message, producing no object; otherwise returns a fresh timer with the given `id` whose snapshot is the one `Construct` gives |
| `CountdownTimer.CountdownTimerImpl.GetInfo` | src/classes/CountdownTimer.ts:66-72 | the snapshot holds exactly the current `state`, `currentTime` and `startTime`; it only reads, so repeated calls between mutations agree |
| `CountdownTimer.CountdownTimerImpl.StartTimer` | src/classes/CountdownTimer.ts:51-54 | returns the same object and changes no field |
| `CountdownTimer.CountdownTimerImpl.PauseTimer` | src/classes/CountdownTimer.ts:56-59 | returns the same object and changes no field |
| `CountdownTimer.CountdownTimerImpl.FinishTimer` | src/classes/CountdownTimer.ts:61-64 | returns the same object and changes no field |
| `IntervalScript.LastArmed` | src/workers/intervalScript.ts:32-37 | the handle of the most recently armed timeout: absent exactly when nothing was armed, otherwise armed by a call with no later arming |
| `IntervalScript.NextDelay` | src/workers/intervalScript.ts:30-32 | `now + delay == startTime + (counter + 1) * interval` whatever `now` is; the delay is below `interval` exactly when the invocation is late, above it exactly when early, and equal exactly when on time |
| `IntervalScript.DelaysAimAtIdealInstants` | src/workers/intervalScript.ts:29-35 | over any sequence of invocation instants, invocation `i + 1` aims the next firing at `startTime + (i + 2) * interval` |
| `IntervalScript.TargetsIndependentOfTiming` | src/workers/intervalScript.ts:29-35 | two runs with different invocation instants aim every next firing at the same instants, so timing error does not build up |
| `IntervalScript.IntervalWorker.constructor` | src/workers/intervalScript.ts:3 | `timeoutId` starts undefined and nothing has been armed |
| `IntervalScript.IntervalWorker.OnMessage` | src/workers/intervalScript.ts:5-23 | START arms a fresh interval starting at `now`, with `counter == 1` and a first timeout of delay `interval`; STOP clears the most recently armed timeout; any other action throws "Unknown worker command" and changes nothing; `timeoutId` stays the latest armed handle |
| `IntervalScript.AccurateInterval.constructor` | src/workers/intervalScript.ts:26-27 | `counter` starts at 1 and `startTime` is the clock reading at creation |
| `IntervalScript.AccurateInterval.AccurateSetInterval` | src/workers/intervalScript.ts:25-38 | arms exactly one timeout, with delay exactly `interval`, stores its handle in `timeoutId`, and returns a closure with `counter == 1` |
| `IntervalScript.AccurateInterval.Fire` | src/workers/intervalScript.ts:29-35 | the call is invocation number `counter`; it arms one timeout aimed at the next ideal instant and stores its handle in `timeoutId`; it increments `counter` by exactly one and leaves `startTime` unchanged; then it posts the tick once; every invocation so far aimed at its successor's ideal instant |

## Left out

- `nanoid()`: a foreign library; the identity is a parameter of `Create`.
- `console.log` in the lifecycle stubs: output only.
- IEEE-754 doubles: `Num` holds exact reals, so rounding error in `Number.isInteger`, `Math.round` and `Number()` is not modelled. `Number()` applied to non-number values (strings, objects) is not modelled: the configuration's `startTime` is a number or absent.
- The event handlers a configuration may carry (`onCreate` and the others): this version never reads them.
- The file defining the timer's state type is not part of this model; the four states are the timer's documented lifecycle states, of which this version only uses `Idle`.
- The constants file defining `WORKER_COMMANDS` and `WORKER_RESPONSE` is not part of this model; actions are `Start`, `Stop` or any other name.
- Real timing: `setTimeout` and `clearTimeout` are recorded in the host-call log and never fire by themselves; `Fire` is called with the instant at which it runs. The host's clamping of negative delays to zero is not modelled.
- `IntervalScript.AccurateInterval.Fire`: the callback is fixed to `postMessage(TICK)`, the only callback START passes.
- Message passing between the page and the worker, worker creation and termination (`src/util/accurateTimer.ts`): threading plumbing.
- The factory `src/api/timer.ts` and the error class `src/errors/timerErrors.ts`: a trivial wrapper and a plain error carrier; the error is the datatype `CreateCountdownTimerError`.
