/** Results of operations that throw in the original. One constructor of `UsrpError` stands for
    one throw site (or for one kind of failure reported by the hardware). */
module Outcomes {

  datatype UsrpError =
    | StreamCountNotSet
    | PeriodBelowSamples
    | MultiStreamRepetitions
    | BufferFull
    | TooManyReplays
    | OutOfRange            // the C++ code indexes a vector past its end: behaviour is undefined there
    | RecordNotStarted
    | ReplayNotStarted
    | CannotClearBuffer
    | NoSignal
    | WrongSignalCount
    | SignalTooLong
    | UnequalLengths
    | OffsetTooSmall
    | NoRepetitions
    | UnalignedRepetition
    | UnalignedPeriod
    | SignalTooShort
    | InvalidStreamCount
    | AntennaNotAvailable
    | ChannelMismatch
    | StreamerError         // the streamer or the radio reported an error event
    | NoEndOfBurst
    | BadWindow             // the hardware was told to play what is not in memory
    | Stalled               // the transfer loop is still waiting for the device

  datatype Option<+T> = None | Some(value: T)

  datatype Outcome = Pass | Fail(error: UsrpError) {
    predicate IsFailure() {
      Fail?
    }

    function PropagateFailure(): Outcome
      requires Fail?
    {
      this
    }
  }

  datatype Result<+T> = Success(value: T) | Failure(error: UsrpError) {
    predicate IsFailure() {
      Failure?
    }

    function PropagateFailure<U>(): Result<U>
      requires Failure?
    {
      Failure(error)
    }

    function Extract(): T
      requires Success?
    {
      value
    }
  }
}
