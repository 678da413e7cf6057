/**
 * The state machine context as the firmware keeps it: one mutable record
 * whose fields the operations update in place. Each method is proved to do
 * to the record exactly what the state-in/state-out function of the same
 * name in `GarageStateMachine` describes.
 */
module GarageContext {
  import opened GarageStateMachine

  class StateMachine {
    var currentState: State
    var timeoutMs: int
    var timerElapsedMs: int
    var timerActive: bool

    /** The record's current value. */
    function Model(): Context
      reads this
    {
      Context(currentState, timeoutMs, timerElapsedMs, timerActive)
    }

    /** Storage before any init call: zero-filled, as for a C static. */
    constructor ()
      ensures Model() == Context(Closed, 0, 0, false)
    {
      currentState, timeoutMs, timerElapsedMs, timerActive := Closed, 0, 0, false;
    }

    method Init(initial: State)
      modifies this
      ensures Model() == GarageStateMachine.Init(initial)
    {
      currentState := initial;
      timeoutMs := DefaultTimeoutMs;
      timerElapsedMs := 0;
      timerActive := false;
    }

    method InitWithConfig(initial: State, config: Config)
      modifies this
      ensures Model() == GarageStateMachine.InitWithConfig(initial, config)
    {
      currentState := initial;
      timeoutMs := if config.timeoutMs > 0 then config.timeoutMs else DefaultTimeoutMs;
      timerElapsedMs := 0;
      timerActive := false;
    }

    /** Observer: the current state. */
    function GetState(): (s: State)
      reads this
      ensures s == Model().currentState
    {
      currentState
    }

    /** Observer: whether the timeout timer is running. */
    function IsTimerActive(): (b: bool)
      reads this
      ensures b == Model().timerActive
    {
      timerActive
    }

    /** Observer: time accumulated on the timeout timer; below the timeout in a well-formed record. */
    function GetTimerElapsed(): (ms: int)
      reads this
      ensures ms == Model().timerElapsedMs
      ensures WellFormed(Model()) ==> 0 <= ms < timeoutMs
    {
      timerElapsedMs
    }

    method ProcessEvent(e: Event) returns (r: TransitionResult)
      modifies this
      ensures GarageStateMachine.ProcessEvent(old(Model()), e) == Step(Model(), r)
    {
      var current := currentState;
      match current {
        case Closed => r := HandleClosedState(current, e);
        case Open => r := HandleOpenState(current, e);
        case Closing => r := HandleClosingState(current, e);
        case Opening => r := HandleOpeningState(current, e);
        case Unknown => r := HandleUnknownState(current, e);
      }

      currentState := r.newState;
      if r.actions.startTimeoutTimer {
        timerActive := true;
        timerElapsedMs := 0;
      }
      if r.newState == Closed || r.newState == Open {
        timerActive := false;
        timerElapsedMs := 0;
      }
    }

    method UpdateTimer(deltaMs: int) returns (r: TransitionResult)
      requires deltaMs >= 0
      modifies this
      ensures GarageStateMachine.UpdateTimer(old(Model()), deltaMs) == Step(Model(), r)
    {
      r := NoChange(currentState);
      if !timerActive {
        return;
      }
      timerElapsedMs := timerElapsedMs + deltaMs;
      if timerElapsedMs >= timeoutMs {
        timerActive := false;
        timerElapsedMs := 0;
        r := ProcessEvent(TimerExpired);
      }
    }
  }
}
