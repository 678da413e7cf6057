/**
 * The garage door state machine: door states, input events, the actions a
 * transition asks for, and the context that carries the timeout bookkeeping.
 *
 * Every operation is written here state-in/state-out: `ProcessEvent` and
 * `UpdateTimer` take a `Context` and return the next `Context` together with
 * the transition result. The in-place version over a mutable record is
 * `GarageContext.StateMachine`, proved to agree with these functions.
 */
module GarageStateMachine {

  /** Believed door position; the C enumeration numbers them from CLOSED = 0. */
  datatype State = Closed | Open | Closing | Opening | Unknown
  {
    /** A door in motion is the only kind whose timeout timer should run. */
    predicate InMotion() { this == Opening || this == Closing }

    /** Reaching a stable state stops and resets the timeout timer. */
    predicate Stable() { this == Closed || this == Open }
  }

  /** Inputs to the state machine; the C enumeration numbers them from NONE = 0. */
  datatype Event = None | SensorClosed | SensorOpen | CommandOpen | CommandClose | TimerExpired

  /** What the caller should do after a transition. */
  datatype Actions = Actions(publishState: bool, triggerButtonPress: bool, startTimeoutTimer: bool)

  /** The outcome of one transition. */
  datatype TransitionResult = TransitionResult(newState: State, stateChanged: bool, actions: Actions)

  /** Caller-supplied configuration; only the timeout is configurable. */
  datatype Config = Config(timeoutMs: int)

  /** The state machine's context record. */
  datatype Context = Context(currentState: State, timeoutMs: int, timerElapsedMs: int, timerActive: bool)

  /** A context after an operation together with the result that operation returned. */
  datatype Step = Step(next: Context, result: TransitionResult)

  /** The timeout used when none (or a non-positive one) is configured: 15 seconds. */
  const DefaultTimeoutMs: int := 15000

  // ---------------------------------------------------------------------------
  // Enumeration ordinals

  function StateOrdinal(s: State): (n: nat)
    ensures n < 5
  {
    match s
    case Closed => 0
    case Open => 1
    case Closing => 2
    case Opening => 3
    case Unknown => 4
  }

  /** Every ordinal below five names exactly one state. */
  function StateOfOrdinal(n: nat): (s: State)
    requires n < 5
    ensures StateOrdinal(s) == n
  {
    if n == 0 then Closed
    else if n == 1 then Open
    else if n == 2 then Closing
    else if n == 3 then Opening
    else Unknown
  }

  function EventOrdinal(e: Event): (n: nat)
    ensures n < 6
  {
    match e
    case None => 0
    case SensorClosed => 1
    case SensorOpen => 2
    case CommandOpen => 3
    case CommandClose => 4
    case TimerExpired => 5
  }

  /** Every ordinal below six names exactly one event. */
  function EventOfOrdinal(n: nat): (e: Event)
    requires n < 6
    ensures EventOrdinal(e) == n
  {
    if n == 0 then None
    else if n == 1 then SensorClosed
    else if n == 2 then SensorOpen
    else if n == 3 then CommandOpen
    else if n == 4 then CommandClose
    else TimerExpired
  }

  // ---------------------------------------------------------------------------
  // State names

  /** Upper-case ASCII letters only. */
  predicate IsUpperWord(w: string)
  {
    |w| > 0 && forall i :: 0 <= i < |w| ==> 'A' <= w[i] <= 'Z'
  }

  /**
   * The name published on the status topic. The code returns the upper-case
   * word, although its header documents lower-case names for publishing.
   */
  function StateToString(s: State): (w: string)
    ensures IsUpperWord(w)
    ensures |w| >= 4
  {
    match s
    case Closed => "CLOSED"
    case Open => "OPEN"
    case Closing => "CLOSING"
    case Opening => "OPENING"
    case Unknown => "UNKNOWN"
  }

  /** The name used in log lines; it is the same word as `StateToString`. */
  function StateToDisplayString(s: State): (w: string)
    ensures w == StateToString(s)
  {
    match s
    case Closed => "CLOSED"
    case Open => "OPEN"
    case Closing => "CLOSING"
    case Opening => "OPENING"
    case Unknown => "UNKNOWN"
  }

  // ---------------------------------------------------------------------------
  // The transition table

  /** Builds a result: a state change and a publish request go together. */
  function MakeResult(current: State, newState: State, buttonPress: bool, startTimer: bool): TransitionResult
  {
    TransitionResult(newState, current != newState, Actions(current != newState, buttonPress, startTimer))
  }

  /** The result that leaves the state as it is and asks for nothing. */
  function NoChange(current: State): TransitionResult
  {
    TransitionResult(current, false, Actions(false, false, false))
  }

  function HandleClosedState(current: State, e: Event): TransitionResult
  {
    match e
    case SensorOpen => MakeResult(current, Opening, false, true)
    case CommandOpen => MakeResult(current, Opening, true, true)
    case _ => MakeResult(current, current, false, false)
  }

  function HandleOpenState(current: State, e: Event): TransitionResult
  {
    match e
    case SensorClosed => MakeResult(current, Closed, false, false)
    case CommandClose => MakeResult(current, Closing, true, true)
    case _ => MakeResult(current, current, false, false)
  }

  function HandleClosingState(current: State, e: Event): TransitionResult
  {
    match e
    case SensorClosed => MakeResult(current, Closed, false, false)
    case TimerExpired => MakeResult(current, Unknown, false, false)
    case _ => MakeResult(current, current, false, false)
  }

  function HandleOpeningState(current: State, e: Event): TransitionResult
  {
    match e
    case SensorClosed => MakeResult(current, Closed, false, false)
    case TimerExpired => MakeResult(current, Open, false, false)
    case _ => MakeResult(current, current, false, false)
  }

  function HandleUnknownState(current: State, e: Event): TransitionResult
  {
    match e
    case SensorClosed => MakeResult(current, Closed, false, false)
    case SensorOpen => MakeResult(current, Open, false, false)
    case CommandOpen => MakeResult(current, Opening, true, true)
    case CommandClose => MakeResult(current, Closing, true, true)
    case _ => MakeResult(current, current, false, false)
  }

  /** The relay is pulsed only when a command, not a sensor, sets the door moving. */
  predicate CommandDriven(s: State, e: Event)
  {
    || (e == CommandOpen && (s == Closed || s == Unknown))
    || (e == CommandClose && (s == Open || s == Unknown))
  }

  /** The state-dependent part of processing an event: which handler decides. */
  function Transition(s: State, e: Event): (r: TransitionResult)
    ensures r.stateChanged == (r.newState != s)
    ensures r.actions.publishState == r.stateChanged
    ensures r.actions.triggerButtonPress <==> CommandDriven(s, e)
    ensures r.actions.startTimeoutTimer <==> r.stateChanged && r.newState.InMotion()
    ensures r.actions.triggerButtonPress ==> r.actions.startTimeoutTimer
    ensures e == SensorClosed ==> r.newState == Closed
    ensures e == None ==> r == NoChange(s)
    ensures r.newState == Unknown && r.stateChanged ==> s == Closing && e == TimerExpired
  {
    match s
    case Closed => HandleClosedState(s, e)
    case Open => HandleOpenState(s, e)
    case Closing => HandleClosingState(s, e)
    case Opening => HandleOpeningState(s, e)
    case Unknown => HandleUnknownState(s, e)
  }

  /** Where a timeout leaves a door: an opening door is assumed open, a closing one lost. */
  function AfterTimeout(s: State): State
  {
    match s
    case Opening => Open
    case Closing => Unknown
    case _ => s
  }

  // ---------------------------------------------------------------------------
  // The context and its operations

  /**
   * What the operations keep true of a context: a positive timeout, an elapsed
   * time below it, and no elapsed time left over on a stopped timer.
   */
  predicate WellFormed(ctx: Context)
  {
    && 0 < ctx.timeoutMs
    && 0 <= ctx.timerElapsedMs < ctx.timeoutMs
    && (!ctx.timerActive ==> ctx.timerElapsedMs == 0)
  }

  /**
   * The consistency one would expect: the timer runs exactly while the door
   * is moving. It is not kept by every call sequence (see GarageProperties).
   */
  predicate TimerTracksMotion(ctx: Context)
  {
    WellFormed(ctx) && (ctx.timerActive <==> ctx.currentState.InMotion())
  }

  function Init(initial: State): (ctx: Context)
    ensures ctx.currentState == initial && ctx.timeoutMs == DefaultTimeoutMs
    ensures !ctx.timerActive && ctx.timerElapsedMs == 0
    ensures WellFormed(ctx)
    ensures TimerTracksMotion(ctx) <==> !initial.InMotion()
  {
    Context(initial, DefaultTimeoutMs, 0, false)
  }

  function InitWithConfig(initial: State, config: Config): (ctx: Context)
    ensures ctx.currentState == initial && !ctx.timerActive && ctx.timerElapsedMs == 0
    ensures config.timeoutMs > 0 ==> ctx.timeoutMs == config.timeoutMs
    ensures config.timeoutMs <= 0 ==> ctx == Init(initial)
    ensures WellFormed(ctx)
  {
    Context(initial, if config.timeoutMs > 0 then config.timeoutMs else DefaultTimeoutMs, 0, false)
  }

  /**
   * Processes one event: moves to the handler's new state, starts the timer
   * when asked to, and stops it on reaching a stable state.
   */
  function ProcessEvent(ctx: Context, e: Event): (st: Step)
    ensures st.result == Transition(ctx.currentState, e)
    ensures st.next.currentState == st.result.newState
    ensures st.next.timeoutMs == ctx.timeoutMs
    ensures st.result.actions.startTimeoutTimer ==> st.next.timerActive && st.next.timerElapsedMs == 0
    ensures st.result.newState.Stable() ==> !st.next.timerActive && st.next.timerElapsedMs == 0
    ensures !st.result.actions.startTimeoutTimer && !st.result.newState.Stable() ==>
              st.next.timerActive == ctx.timerActive && st.next.timerElapsedMs == ctx.timerElapsedMs
    ensures WellFormed(ctx) ==> WellFormed(st.next)
  {
    var r := Transition(ctx.currentState, e);
    var started := if r.actions.startTimeoutTimer then ctx.(timerActive := true, timerElapsedMs := 0) else ctx;
    var stopped := if r.newState.Stable() then started.(timerActive := false, timerElapsedMs := 0) else started;
    Step(stopped.(currentState := r.newState), r)
  }

  /**
   * Advances a running timer by `deltaMs`; once the elapsed time reaches the
   * timeout the timer is stopped and a TimerExpired event is processed.
   */
  function UpdateTimer(ctx: Context, deltaMs: int): (st: Step)
    requires deltaMs >= 0
    ensures !ctx.timerActive ==> st == Step(ctx, NoChange(ctx.currentState))
    ensures ctx.timerActive && ctx.timerElapsedMs + deltaMs < ctx.timeoutMs ==>
              st == Step(ctx.(timerElapsedMs := ctx.timerElapsedMs + deltaMs), NoChange(ctx.currentState))
    ensures ctx.timerActive && ctx.timerElapsedMs + deltaMs >= ctx.timeoutMs ==>
              && st.next == Context(AfterTimeout(ctx.currentState), ctx.timeoutMs, 0, false)
              && st.result.newState == AfterTimeout(ctx.currentState)
              && st.result == Transition(ctx.currentState, TimerExpired)
              && st.result.stateChanged == ctx.currentState.InMotion()
              && st.result.actions.publishState == st.result.stateChanged
              && !st.result.actions.triggerButtonPress
              && !st.result.actions.startTimeoutTimer
    ensures st.result.stateChanged ==> ctx.currentState.InMotion()
    ensures st.next.timeoutMs == ctx.timeoutMs
    ensures WellFormed(ctx) ==> WellFormed(st.next)
  {
    if !ctx.timerActive then
      Step(ctx, NoChange(ctx.currentState))
    else
      var elapsed := ctx.timerElapsedMs + deltaMs;
      if elapsed >= ctx.timeoutMs then
        ProcessEvent(ctx.(timerActive := false, timerElapsedMs := 0), TimerExpired)
      else
        Step(ctx.(timerElapsedMs := elapsed), NoChange(ctx.currentState))
  }
}
