/**
 * The shared timer the view drives. Its internals belong to the timing
 * engine and are not modelled: the model keeps the log of accesses the
 * view makes to it (each write with the operation it asks for) and the
 * two values the sidebar reads back.
 */
module Timer {

  /** A duration value of the timing engine; its representation is not modelled. */
  type TimeSpan(==)

  datatype TimingMethod = RealTime | GameTime

  /** The operations the view asks of the timer through the write accessor. */
  datatype TimerOp =
    | Start
    | Split
    | SplitOrStart
    | Reset(updateSplits: bool)
    | TogglePauseOrStart
    | UndoSplit
    | SkipSplit
    | InitializeGameTime
    | SetGameTime(time: TimeSpan)
    | SetLoadingTimes(time: TimeSpan)
    | PauseGameTime
    | ResumeGameTime

  /** One scoped access: a `writeWith` performing an operation, or a `readWith`. */
  datatype Access = Write(op: TimerOp) | Read

  class SharedTimer {
    /** Every access made so far, oldest first. */
    var accesses: seq<Access>
    var comparison: string
    var timingMethod: TimingMethod

    constructor (comparison: string, timingMethod: TimingMethod)
      ensures accesses == []
      ensures this.comparison == comparison && this.timingMethod == timingMethod
    {
      accesses := [];
      this.comparison := comparison;
      this.timingMethod := timingMethod;
    }

    /** `timer.writeWith((t) => t.<op>(...))`. */
    method WriteWith(op: TimerOp)
      modifies this`accesses
      ensures accesses == old(accesses) + [Write(op)]
    {
      accesses := accesses + [Write(op)];
    }

    /** `timer.readWith((t) => [t.currentComparison(), t.currentTimingMethod()])`. */
    method ReadComparisonAndTimingMethod() returns (c: string, tm: TimingMethod)
      modifies this`accesses
      ensures c == comparison && tm == timingMethod
      ensures accesses == old(accesses) + [Read]
    {
      c, tm := comparison, timingMethod;
      accesses := accesses + [Read];
    }
  }
}
