/** The countdown timer of src/classes/CountdownTimer.ts: its configuration
    validator, its construction, its information query and the lifecycle
    methods, which in this version change nothing. */
module CountdownTimer {
  import opened Wrappers
  import opened Number

  /** The opaque identity `nanoid()` produces; here it is supplied by the caller. */
  type TimerId = string

  /** The lifecycle states of a timer. This version only ever uses `Idle`. */
  datatype CountdownTimerState = Idle | Running | Paused | Finished

  /** The configuration record. The optional event handlers it may carry are
      never read by this version and are left out; `startTime` may be absent. */
  datatype CountdownTimerConfig = CountdownTimerConfig(startTime: Option<Num>)

  /** The snapshot `getInfo` returns. */
  datatype CountdownTimerInfo = CountdownTimerInfo(state: CountdownTimerState, currentTime: Num, startTime: Num)

  /** The error the constructor throws, with its message; its `name` is fixed. */
  datatype CreateCountdownTimerError = CreateCountdownTimerError(message: string)
  {
    function Name(): string { "CreateCountdownTimerError" }
  }

  const MissingConfigMessage: string := "Please provide configuration for timer"
  const InvalidStartTimeMessage: string := "Countdown timer config requires a non-negative integer `startTime`"

  /** JavaScript truthiness of the validator's answer, as `if (errorMsg)` tests it. */
  predicate Truthy(message: Option<string>) {
    message.Some? && message.value != ""
  }

  /** The condition the validator's second test rejects, negated. */
  predicate ValidStartTime(startTime: Option<Num>) {
    startTime.Some? && IsInteger(startTime.value) && IsPositiveNumber(startTime.value)
  }

  /** `getTimerCreationErrorMessage`: one message for a missing configuration,
      another for a missing, non-integral or negative `startTime`, none otherwise.
      Every message it returns is non-empty, so `if (errorMsg)` throws exactly
      when there is one. */
  function GetTimerCreationErrorMessage(config: Option<CountdownTimerConfig>): (r: Option<string>)
    ensures config.None? ==> r == Some(MissingConfigMessage)
    ensures config.Some? && !ValidStartTime(config.value.startTime) ==> r == Some(InvalidStartTimeMessage)
    ensures r.None? <==> config.Some? && ValidStartTime(config.value.startTime)
    ensures Truthy(r) <==> r.Some?
  {
    if config.None? then
      Some(MissingConfigMessage)
    else if config.value.startTime.None?
         || !IsInteger(config.value.startTime.value)
         || !IsPositiveNumber(config.value.startTime.value) then
      Some(InvalidStartTimeMessage)
    else
      None
  }

  /** Every non-negative integer is accepted as a start time, zero included. */
  lemma AcceptsEveryNatural(n: nat)
    ensures GetTimerCreationErrorMessage(Some(CountdownTimerConfig(Some(Finite(n as real))))) == None
  {
  }

  /** A start time that is accepted is a non-negative integer. */
  lemma AcceptedIsNatural(config: CountdownTimerConfig)
    requires GetTimerCreationErrorMessage(Some(config)) == None
    ensures config.startTime.Some? && config.startTime.value.Finite?
    ensures config.startTime.value.v.Floor >= 0
    ensures config.startTime.value == Finite(config.startTime.value.v.Floor as real)
  {
  }

  /** A negative integer, a fraction, `NaN` and an infinity are all refused
      with the start-time message. */
  lemma RejectsInvalidStartTimes(n: int, x: real)
    requires n < 0
    requires x.Floor as real != x
    ensures GetTimerCreationErrorMessage(Some(CountdownTimerConfig(Some(Finite(n as real))))) == Some(InvalidStartTimeMessage)
    ensures GetTimerCreationErrorMessage(Some(CountdownTimerConfig(Some(Finite(x))))) == Some(InvalidStartTimeMessage)
    ensures GetTimerCreationErrorMessage(Some(CountdownTimerConfig(Some(NaN)))) == Some(InvalidStartTimeMessage)
    ensures GetTimerCreationErrorMessage(Some(CountdownTimerConfig(Some(Infinity(false))))) == Some(InvalidStartTimeMessage)
    ensures GetTimerCreationErrorMessage(Some(CountdownTimerConfig(None))) == Some(InvalidStartTimeMessage)
  {
  }

  /** What constructing a timer from `config` yields: the error it throws, or
      the snapshot of the fresh object. */
  function Construct(config: Option<CountdownTimerConfig>): (r: Result<CountdownTimerInfo, CreateCountdownTimerError>)
    ensures r.Failure? <==> GetTimerCreationErrorMessage(config).Some?
    ensures r.Failure? ==> r.error.message == GetTimerCreationErrorMessage(config).value
    ensures r.Success? ==> r.value.state == Idle
    ensures r.Success? ==> r.value.startTime == config.value.startTime.value
    ensures r.Success? ==> r.value.currentTime == r.value.startTime
  {
    var errorMsg := GetTimerCreationErrorMessage(config);
    if Truthy(errorMsg) then
      Failure(CreateCountdownTimerError(errorMsg.value))
    else
      var startTime := config.value.startTime.value;
      Success(CountdownTimerInfo(Idle, ConvertToInteger(startTime).value, startTime))
  }

  /** `CountdownTimerImpl`. The identity is a `const`: it is set once, by the
      constructor, and nothing can change it afterwards. */
  class CountdownTimerImpl {
    const id: TimerId
    var startTime: Num
    var currentTime: Num
    var state: CountdownTimerState

    /** What every timer satisfies in this version, where no method changes a field. */
    ghost predicate Valid()
      reads this
    {
      ValidStartTime(Some(startTime)) && currentTime == startTime && state == Idle
    }

    /** The field assignments of the constructor, once validation has passed. */
    constructor (config: CountdownTimerConfig, id: TimerId)
      requires GetTimerCreationErrorMessage(Some(config)) == None
      ensures this.id == id
      ensures GetInfo() == Construct(Some(config)).value
      ensures Valid()
    {
      var startTime := config.startTime.value;
      var startTimeInNumber := ConvertToInteger(startTime).value;
      this.id := id;
      this.currentTime := startTimeInNumber;
      this.startTime := startTime;
      this.state := Idle;
    }

    /** `new CountdownTimerImpl(config)`: throws `CreateCountdownTimerError`
        exactly when the validator has a message, and produces no object then. */
    static method Create(config: Option<CountdownTimerConfig>, id: TimerId)
      returns (r: Result<CountdownTimerImpl, CreateCountdownTimerError>)
      ensures r.Failure? <==> GetTimerCreationErrorMessage(config).Some?
      ensures r.Failure? ==> r.error == Construct(config).error
      ensures r.Success? ==> fresh(r.value) && r.value.id == id && r.value.Valid()
      ensures r.Success? ==> r.value.GetInfo() == Construct(config).value
    {
      var errorMsg := GetTimerCreationErrorMessage(config);
      if Truthy(errorMsg) {
        return Failure(CreateCountdownTimerError(errorMsg.value));
      }
      var timer := new CountdownTimerImpl(config.value, id);
      return Success(timer);
    }

    /** `getInfo`: a snapshot of the current state, read without changing anything. */
    function GetInfo(): (info: CountdownTimerInfo)
      reads this
      ensures info.state == state && info.currentTime == currentTime && info.startTime == startTime
    {
      CountdownTimerInfo(state, currentTime, startTime)
    }

    /** `startTimer`: in this version only logs, and returns the same object. */
    method StartTimer() returns (r: CountdownTimerImpl)
      ensures r == this
      ensures unchanged(this)
    {
      return this;
    }

    /** `pauseTimer`: in this version only logs, and returns the same object. */
    method PauseTimer() returns (r: CountdownTimerImpl)
      ensures r == this
      ensures unchanged(this)
    {
      return this;
    }

    /** `finishTimer`: in this version only logs, and returns the same object. */
    method FinishTimer() returns (r: CountdownTimerImpl)
      ensures r == this
      ensures unchanged(this)
    {
      return this;
    }
  }
}
