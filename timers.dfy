/**
 * Timer, reduced to the fields and calls the tank and the play scene touch. Its per-tick
 * arithmetic and its bound command are not part of this model: `Update` only counts calls.
 */
module Timers {

  datatype TimerType = ASCENDING | DESCENDING | PAUSE_AT_ZERO

  datatype Timer = Timer(
    timerType: TimerType,
    time: real,
    defaultTime: real,
    executeTime: real,
    paused: bool,
    updates: nat)
  {
    /** `Reset()`: time goes back to the default time. */
    function Reset(): Timer {
      this.(time := defaultTime)
    }

    function Pause(): Timer {
      this.(paused := true)
    }

    function UnPause(): Timer {
      this.(paused := false)
    }

    /** `Update()`, recorded as one more call. */
    function Update(): Timer {
      this.(updates := updates + 1)
    }
  }

  /** `new Timer(type)`: assumed to start running, with every time at 0. */
  function NewTimer(timerType: TimerType): Timer {
    Timer(timerType, 0.0, 0.0, 0.0, false, 0)
  }
}
