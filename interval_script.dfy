/** The worker of src/workers/intervalScript.ts: a drift-corrected interval
    that re-arms a single timeout on every firing, and the command dispatch
    that starts and stops it. Time is integer milliseconds passed in as `now`;
    arming and clearing a timeout are recorded as calls into the host. */
module IntervalScript {
  import opened Wrappers

  /** The action of a message sent to the worker. The constants file that names
      START and STOP is not part of this model; any other action is `Other`. */
  datatype Command = Start | Stop | Other(name: string)

  /** The data of a message sent to the worker. */
  datatype WorkerMessage = WorkerMessage(action: Command, interval: int)

  /** A call the worker makes into its host, in the order it makes them:
      `setTimeout` with the handle it returned, `clearTimeout`, and the
      `postMessage(TICK)` the interval's callback sends. */
  datatype HostCall = Armed(handle: nat, delay: int) | Cleared(clearedHandle: Option<nat>) | Ticked

  /** The error thrown for an action other than START or STOP. */
  datatype WorkerError = UnknownWorkerCommand
  {
    function Message(): string { "Unknown worker command" }
  }

  /** The handle of the most recent `setTimeout` in `calls`, if there is one. */
  function LastArmed(calls: seq<HostCall>): (r: Option<nat>)
    ensures r.None? <==> forall i :: 0 <= i < |calls| ==> !calls[i].Armed?
    ensures r.Some? ==> exists i :: 0 <= i < |calls| && calls[i].Armed? && calls[i].handle == r.value
                                  && forall j :: i < j < |calls| ==> !calls[j].Armed?
  {
    if calls == [] then None
    else if calls[|calls| - 1].Armed? then Some(calls[|calls| - 1].handle)
    else LastArmed(calls[..|calls| - 1])
  }

  /** The delay `main` arms when it runs at `now` as invocation number `counter`:
      it aims the next firing at the absolute instant
      `startTime + (counter + 1) * interval`, whatever `now` is, so it is shorter
      than `interval` exactly when this invocation is late, and longer exactly
      when it is early. A negative delay is not clamped. */
  function NextDelay(interval: int, startTime: int, counter: int, now: int): (delay: int)
    ensures now + delay == startTime + (counter + 1) * interval
    ensures delay < interval <==> now > startTime + counter * interval
    ensures delay > interval <==> now < startTime + counter * interval
    ensures delay == interval <==> now == startTime + counter * interval
  {
    var nextTime := startTime + counter * interval;
    interval - (now - nextTime)
  }

  /** The delays armed by the first `|nows|` invocations of `main` when they run
      at the instants `nows`; invocation number `k` runs with `counter == k`. */
  ghost function Delays(interval: int, startTime: int, nows: seq<int>): (ds: seq<int>)
    ensures |ds| == |nows|
  {
    if nows == [] then []
    else Delays(interval, startTime, nows[..|nows| - 1]) + [NextDelay(interval, startTime, |nows|, nows[|nows| - 1])]
  }

  /** Drift correction: however early or late each invocation ran, invocation
      number `i + 1` aims its successor at `startTime + (i + 2) * interval`,
      the ideal instant of invocation `i + 2`. */
  lemma {:induction false} DelaysAimAtIdealInstants(interval: int, startTime: int, nows: seq<int>)
    ensures forall i :: 0 <= i < |nows| ==>
      nows[i] + Delays(interval, startTime, nows)[i] == startTime + (i + 2) * interval
  {
    if nows != [] {
      var prefix := nows[..|nows| - 1];
      DelaysAimAtIdealInstants(interval, startTime, prefix);
      forall i | 0 <= i < |nows|
        ensures nows[i] + Delays(interval, startTime, nows)[i] == startTime + (i + 2) * interval
      {
        if i < |prefix| {
          assert nows[i] == prefix[i];
        }
      }
    }
  }

  /** Timing error does not build up: two runs whose invocations happen at
      different instants aim every next firing at the same instants. */
  lemma {:induction false} TargetsIndependentOfTiming(interval: int, startTime: int, nows: seq<int>, others: seq<int>)
    requires |nows| == |others|
    ensures forall i :: 0 <= i < |nows| ==>
      nows[i] + Delays(interval, startTime, nows)[i] == others[i] + Delays(interval, startTime, others)[i]
  {
    DelaysAimAtIdealInstants(interval, startTime, nows);
    DelaysAimAtIdealInstants(interval, startTime, others);
  }

  /** The state of the worker: the module-level `timeoutId`, and the host it
      runs on, with the handle its next `setTimeout` returns and the calls
      made into it so far. */
  class IntervalWorker {
    var timeoutId: Option<nat>
    var nextHandle: nat
    var calls: seq<HostCall>

    /** `timeoutId` is always the handle of the most recently armed timeout,
        and every handle handed out so far is below `nextHandle`. */
    ghost predicate Valid()
      reads this
    {
      && timeoutId == LastArmed(calls)
      && (forall i :: 0 <= i < |calls| && calls[i].Armed? ==> calls[i].handle < nextHandle)
    }

    /** A freshly loaded worker: `timeoutId` is undefined and nothing was armed. */
    constructor ()
      ensures Valid()
      ensures timeoutId == None && calls == []
    {
      timeoutId := None;
      nextHandle := 1;
      calls := [];
    }

    /** The host's `setTimeout`: records the call and returns a new handle. */
    method SetTimeout(delay: int) returns (handle: nat)
      modifies this`nextHandle, this`calls
      ensures handle == old(nextHandle) && nextHandle == handle + 1
      ensures calls == old(calls) + [Armed(handle, delay)]
    {
      handle := nextHandle;
      nextHandle := nextHandle + 1;
      calls := calls + [Armed(handle, delay)];
    }

    /** The host's `clearTimeout`. */
    method ClearTimeout(handle: Option<nat>)
      modifies this`calls
      ensures calls == old(calls) + [Cleared(handle)]
    {
      calls := calls + [Cleared(handle)];
    }

    /** `self.postMessage(TICK)`, the callback START hands to the interval. */
    method PostTick()
      modifies this`calls
      ensures calls == old(calls) + [Ticked]
    {
      calls := calls + [Ticked];
    }

    /** `self.onmessage`: START arms a new drift-corrected interval whose clock
        starts at `now`, STOP clears the latest armed timeout, and any other
        action throws and changes nothing. */
    method OnMessage(message: WorkerMessage, now: int) returns (r: Result<Option<AccurateInterval>, WorkerError>)
      requires Valid()
      modifies this
      ensures Valid()
      ensures message.action.Start? ==>
        && r.Success? && r.value.Some? && fresh(r.value.value)
        && r.value.value.worker == this && r.value.value.Valid()
        && r.value.value.interval == message.interval
        && r.value.value.startTime == now && r.value.value.counter == 1
        && calls == old(calls) + [Armed(old(nextHandle), message.interval)]
        && timeoutId == Some(old(nextHandle))
      ensures message.action.Stop? ==>
        && r == Success(None)
        && calls == old(calls) + [Cleared(old(timeoutId))]
        && old(timeoutId) == LastArmed(old(calls))
        && timeoutId == old(timeoutId) && nextHandle == old(nextHandle)
      ensures message.action.Other? ==> r == Failure(UnknownWorkerCommand) && unchanged(this)
    {
      match message.action
      case Start =>
        var interval := AccurateInterval.AccurateSetInterval(this, message.interval, now);
        r := Success(Some(interval));
      case Stop =>
        ClearTimeout(timeoutId);
        r := Success(None);
      case Other(_) =>
        r := Failure(UnknownWorkerCommand);
    }
  }

  /** The closure `accurateSetInterval` creates: `startTime` fixed at creation,
      `counter` incremented by each invocation of `main`, and the worker whose
      `timeoutId` it overwrites. Ghost fields record the instants at which
      `main` ran and the delays it armed. */
  class AccurateInterval {
    const worker: IntervalWorker
    const interval: int
    const startTime: int
    var counter: int
    ghost var invocations: seq<int>
    ghost var delays: seq<int>

    /** `counter` is one more than the number of invocations so far, and the
        delays armed are those of `Delays`. */
    ghost predicate Valid()
      reads this
    {
      counter == |invocations| + 1 && delays == Delays(interval, startTime, invocations)
    }

    /** The closure's variables as `accurateSetInterval` initialises them. */
    constructor (worker: IntervalWorker, interval: int, now: int)
      ensures this.worker == worker && this.interval == interval
      ensures startTime == now && counter == 1
      ensures invocations == [] && Valid()
    {
      this.worker := worker;
      this.interval := interval;
      this.startTime := now;
      this.counter := 1;
      this.invocations := [];
      this.delays := [];
    }

    /** `accurateSetInterval`: reads the clock once, sets `counter` to 1, and
        arms the first timeout with delay exactly `interval`. */
    static method AccurateSetInterval(worker: IntervalWorker, interval: int, now: int) returns (c: AccurateInterval)
      requires worker.Valid()
      modifies worker
      ensures fresh(c) && c.worker == worker && c.Valid()
      ensures c.interval == interval && c.startTime == now && c.counter == 1
      ensures worker.Valid()
      ensures worker.calls == old(worker.calls) + [Armed(old(worker.nextHandle), interval)]
      ensures worker.nextHandle == old(worker.nextHandle) + 1
      ensures worker.timeoutId == Some(old(worker.nextHandle))
    {
      c := new AccurateInterval(worker, interval, now);
      var handle := worker.SetTimeout(interval);
      worker.timeoutId := Some(handle);
    }

    /** The inner function `main`, invoked at `now`: this is invocation number `counter`, whose
        ideal instant is `startTime + counter * interval`. It re-arms the
        timeout aimed at the next ideal instant, stores its handle in
        `timeoutId`, increments `counter` by one and only then runs the
        callback, once. */
    method Fire(now: int)
      requires Valid() && worker.Valid()
      modifies this, worker
      ensures Valid() && worker.Valid()
      ensures counter == old(counter) + 1
      ensures invocations == old(invocations) + [now] && |invocations| == old(counter)
      ensures worker.calls == old(worker.calls)
        + [Armed(old(worker.nextHandle), NextDelay(interval, startTime, old(counter), now)), Ticked]
      ensures worker.nextHandle == old(worker.nextHandle) + 1
      ensures worker.timeoutId == Some(old(worker.nextHandle))
      ensures forall i :: 0 <= i < |invocations| ==> invocations[i] + delays[i] == startTime + (i + 2) * interval
    {
      var nowTime := now;
      var nextTime := startTime + counter * interval;
      var handle := worker.SetTimeout(interval - (nowTime - nextTime));
      worker.timeoutId := Some(handle);
      invocations := invocations + [now];
      delays := delays + [interval - (nowTime - nextTime)];
      counter := counter + 1;
      worker.PostTick();
      assert worker.calls[..|worker.calls| - 1] == old(worker.calls) + [Armed(handle, NextDelay(interval, startTime, old(counter), now))];
      DelaysAimAtIdealInstants(interval, startTime, invocations);
    }
  }
}
