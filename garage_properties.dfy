/**
 * Properties of the door state machine over single calls and over call
 * sequences: the transition table, the timer bookkeeping, the consistency
 * between the timer and the door's motion, and the timeout firing once.
 */
module GarageProperties {
  import opened GarageStateMachine

  // ---------------------------------------------------------------------------
  // The transition table, written independently of the handlers

  /** The twelve listed (state, event) pairs and their destinations. */
  const Table: map<(State, Event), State> := map[
    (Closed, SensorOpen) := Opening,
    (Closed, CommandOpen) := Opening,
    (Open, SensorClosed) := Closed,
    (Open, CommandClose) := Closing,
    (Closing, SensorClosed) := Closed,
    (Closing, TimerExpired) := Unknown,
    (Opening, SensorClosed) := Closed,
    (Opening, TimerExpired) := Open,
    (Unknown, SensorClosed) := Closed,
    (Unknown, SensorOpen) := Open,
    (Unknown, CommandOpen) := Opening,
    (Unknown, CommandClose) := Closing
  ]

  /** Listed pairs go where the table says; every other pair is a no-op with all flags false. */
  lemma TransitionFollowsTable(s: State, e: Event)
    ensures (s, e) in Table ==> Transition(s, e).newState == Table[(s, e)] && Transition(s, e).stateChanged
    ensures (s, e) !in Table ==> Transition(s, e) == NoChange(s)
  {
    match s
    case Closed =>
    case Open =>
    case Closing =>
    case Opening =>
    case Unknown =>
  }

  /** No pair of distinct states or events shares an ordinal: five states, six events. */
  lemma OrdinalsAreExact(s: State, t: State, e: Event, f: Event)
    ensures StateOfOrdinal(StateOrdinal(s)) == s
    ensures StateOrdinal(s) == StateOrdinal(t) ==> s == t
    ensures EventOfOrdinal(EventOrdinal(e)) == e
    ensures EventOrdinal(e) == EventOrdinal(f) ==> e == f
  {
  }

  /** Distinct states publish distinct names, and none of them in lower case. */
  lemma StateNamesAreDistinctAndUpperCase(s: State, t: State)
    ensures s != t ==> StateToString(s) != StateToString(t)
    ensures StateToString(s)[0] != 'c' && StateToString(s)[0] != 'o' && StateToString(s)[0] != 'u'
  {
  }

  // ---------------------------------------------------------------------------
  // Traces the dispatcher can produce

  /** One call into the state machine: an event, or a timer update by some milliseconds. */
  datatype Stimulus = Deliver(event: Event) | Tick(deltaMs: nat)

  function Apply(ctx: Context, x: Stimulus): Step
  {
    match x
    case Deliver(e) => ProcessEvent(ctx, e)
    case Tick(d) => UpdateTimer(ctx, d)
  }

  function Run(ctx: Context, xs: seq<Stimulus>): Context
    decreases |xs|
  {
    if xs == [] then ctx else Run(Apply(ctx, xs[0]).next, xs[1..])
  }

  /** A trace the dispatcher can produce never injects TimerExpired directly. */
  predicate NoInjectedTimeout(xs: seq<Stimulus>)
  {
    forall i :: 0 <= i < |xs| ==> xs[i] != Deliver(TimerExpired)
  }

  /** The weaker half of the consistency: a running timer means a moving door. */
  predicate TimerImpliesMotion(ctx: Context)
  {
    WellFormed(ctx) && (ctx.timerActive ==> ctx.currentState.InMotion())
  }

  lemma StimulusKeepsTimerTracksMotion(ctx: Context, x: Stimulus)
    requires TimerTracksMotion(ctx)
    requires x != Deliver(TimerExpired)
    ensures TimerTracksMotion(Apply(ctx, x).next)
  {
    match x
    case Deliver(e) =>
      var r := Transition(ctx.currentState, e);
      assert r.newState == Unknown ==> !r.stateChanged;
    case Tick(d) =>
  }

  lemma StimulusKeepsTimerImpliesMotion(ctx: Context, x: Stimulus)
    requires TimerImpliesMotion(ctx)
    requires x != Deliver(TimerExpired)
    ensures TimerImpliesMotion(Apply(ctx, x).next)
  {
    match x
    case Deliver(e) =>
      var r := Transition(ctx.currentState, e);
      assert r.newState == Unknown ==> !r.stateChanged;
    case Tick(d) =>
  }

  /**
   * From a context whose timer tracks the door's motion, every trace of
   * events other than TimerExpired and of timer updates keeps it so.
   */
  lemma {:induction false} DispatcherTracesKeepTimerTracksMotion(ctx: Context, xs: seq<Stimulus>)
    requires TimerTracksMotion(ctx)
    requires NoInjectedTimeout(xs)
    ensures TimerTracksMotion(Run(ctx, xs))
    decreases |xs|
  {
    if xs != [] {
      StimulusKeepsTimerTracksMotion(ctx, xs[0]);
      assert NoInjectedTimeout(xs[1..]) by {
        forall i | 0 <= i < |xs[1..]| ensures xs[1..][i] != Deliver(TimerExpired) {
          assert xs[1..][i] == xs[i + 1];
        }
      }
      DispatcherTracesKeepTimerTracksMotion(Apply(ctx, xs[0]).next, xs[1..]);
    }
  }

  /**
   * The weaker "running timer means moving door" holds along the same traces
   * from any well-formed context, including one initialised into motion.
   */
  lemma {:induction false} DispatcherTracesKeepTimerImpliesMotion(ctx: Context, xs: seq<Stimulus>)
    requires TimerImpliesMotion(ctx)
    requires NoInjectedTimeout(xs)
    ensures TimerImpliesMotion(Run(ctx, xs))
    decreases |xs|
  {
    if xs != [] {
      StimulusKeepsTimerImpliesMotion(ctx, xs[0]);
      assert NoInjectedTimeout(xs[1..]) by {
        forall i | 0 <= i < |xs[1..]| ensures xs[1..][i] != Deliver(TimerExpired) {
          assert xs[1..][i] == xs[i + 1];
        }
      }
      DispatcherTracesKeepTimerImpliesMotion(Apply(ctx, xs[0]).next, xs[1..]);
    }
  }

  /** Initialising straight into a moving state leaves the timer stopped. */
  lemma InitIntoMotionBreaksTracking()
    ensures TimerImpliesMotion(Init(Opening))
    ensures !TimerTracksMotion(Init(Opening))
  {
  }

  /**
   * TimerExpired delivered directly while closing moves to UNKNOWN but
   * leaves the timer running: neither half of the consistency survives.
   */
  lemma InjectedTimeoutBreaksTracking()
    ensures var closing := ProcessEvent(Init(Open), CommandClose).next;
            && TimerTracksMotion(closing)
            && var after := ProcessEvent(closing, TimerExpired).next;
            && after.currentState == Unknown && after.timerActive
            && !TimerImpliesMotion(after)
  {
  }

  // ---------------------------------------------------------------------------
  // Timer updates: accumulation and a single firing

  function Sum(deltas: seq<nat>): nat
    decreases |deltas|
  {
    if deltas == [] then 0 else deltas[0] + Sum(deltas[1..])
  }

  /** Runs timer updates in order; returns the final context and how many changed the state. */
  function Ticks(ctx: Context, deltas: seq<nat>): (Context, nat)
    decreases |deltas|
  {
    if deltas == [] then (ctx, 0)
    else
      var st := UpdateTimer(ctx, deltas[0]);
      var (final, changes) := Ticks(st.next, deltas[1..]);
      (final, changes + if st.result.stateChanged then 1 else 0)
  }

  /** Timer updates on a stopped timer change nothing. */
  lemma {:induction false} TicksWhileStopped(ctx: Context, deltas: seq<nat>)
    requires !ctx.timerActive
    ensures Ticks(ctx, deltas) == (ctx, 0)
    decreases |deltas|
  {
    if deltas != [] {
      TicksWhileStopped(ctx, deltas[1..]);
    }
  }

  /**
   * A moving door's running timer: while the accumulated time stays below the
   * timeout nothing changes but the elapsed time; once it reaches the timeout
   * the door takes its timeout state, the timer stops, and that happens once.
   */
  lemma {:induction false} TicksFireExactlyOnce(ctx: Context, deltas: seq<nat>)
    requires WellFormed(ctx) && ctx.timerActive && ctx.currentState.InMotion()
    ensures var (final, changes) := Ticks(ctx, deltas);
            if ctx.timerElapsedMs + Sum(deltas) < ctx.timeoutMs then
              final == ctx.(timerElapsedMs := ctx.timerElapsedMs + Sum(deltas)) && changes == 0
            else
              final == Context(AfterTimeout(ctx.currentState), ctx.timeoutMs, 0, false) && changes == 1
    decreases |deltas|
  {
    if deltas != [] {
      var st := UpdateTimer(ctx, deltas[0]);
      if ctx.timerElapsedMs + deltas[0] < ctx.timeoutMs {
        TicksFireExactlyOnce(st.next, deltas[1..]);
      } else {
        TicksWhileStopped(st.next, deltas[1..]);
      }
    }
  }

  lemma {:induction false} SumOfEqualTicks(n: nat, d: nat)
    ensures Sum(seq(n, _ => d)) == n * d
  {
    if n > 0 {
      assert seq(n, _ => d)[1..] == seq(n - 1, _ => d);
      SumOfEqualTicks(n - 1, d);
    }
  }

  /**
   * With the dispatcher's fixed tick, a door set moving by an event reaches its
   * timeout state after exactly the first n ticks for which n * tick >= timeout.
   */
  lemma PeriodicTicksResolveMotion(ctx: Context, e: Event, n: nat, tickMs: nat)
    requires WellFormed(ctx)
    requires ProcessEvent(ctx, e).result.actions.startTimeoutTimer
    ensures var moving := ProcessEvent(ctx, e).next;
            var (final, changes) := Ticks(moving, seq(n, _ => tickMs));
            if n * tickMs < ctx.timeoutMs then final.currentState == moving.currentState && changes == 0
            else final.currentState == AfterTimeout(moving.currentState) && !final.timerActive && changes == 1
  {
    var moving := ProcessEvent(ctx, e).next;
    SumOfEqualTicks(n, tickMs);
    TicksFireExactlyOnce(moving, seq(n, _ => tickMs));
  }

  // ---------------------------------------------------------------------------
  // Scenarios from the unit tests

  /** Closed, OPEN command, full timeout: opening with a relay pulse, then open. */
  lemma ScenarioOpenCommandThenTimeout()
    ensures var a := ProcessEvent(Init(Closed), CommandOpen);
            && a.result.newState == Opening && a.result.actions.triggerButtonPress
            && a.result.actions.startTimeoutTimer && a.next.timerActive
            && var b := UpdateTimer(a.next, 15000);
            && b.result.newState == Open && b.result.actions.publishState && !b.next.timerActive
  {
  }

  /** Open, sensor reports closed: closed, without a relay pulse. */
  lemma ScenarioSensorClosesOpenDoor()
    ensures var a := ProcessEvent(Init(Open), SensorClosed);
            a.result.newState == Closed && !a.result.actions.triggerButtonPress && a.result.stateChanged
  {
  }

  /** Closing with no sensor confirmation until the timeout: unknown, timer stopped. */
  lemma ScenarioClosingTimesOut()
    ensures var a := ProcessEvent(Init(Open), CommandClose);
            var b := UpdateTimer(a.next, 15000);
            b.result.newState == Unknown && b.result.stateChanged && !b.next.timerActive
  {
  }

  /** One millisecond short of the timeout nothing happens; the next millisecond fires. */
  lemma ScenarioCustomTimeoutBoundary()
    ensures var a := ProcessEvent(InitWithConfig(Closed, Config(5000)), CommandOpen);
            var b := UpdateTimer(a.next, 4999);
            var c := UpdateTimer(b.next, 1);
            b.result.newState == Opening && !b.result.stateChanged && c.result.newState == Open
  {
  }
}
