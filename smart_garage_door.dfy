/**
 * The application's dispatcher: it turns queued inputs into door events,
 * classifies inbound messages, decides which side effects a transition asks
 * for, and drives the state machine's timer from a fixed periodic tick.
 *
 * Hardware and messaging calls are not performed; the side effects the code
 * would request are appended, in order, to `Controller.outbox`.
 */
module SmartGarageDoor {
  import opened GarageStateMachine
  import opened GarageContext
  import GarageProperties
  import WifiRetryManager

  /** Topics of the production build. */
  const StatusTopic: string := "garage_door/status"
  const AvailabilityTopic: string := "garage_door/availability"
  const CommandTopic: string := "garage_door/buttonpress"

  /** Exact command payloads accepted on the command topic. */
  const CommandOpenPayload: string := "OPEN"
  const CommandClosePayload: string := "CLOSE"

  /** Period of the state machine's timer tick, in milliseconds. */
  const StateTickMs: nat := 100

  /** Capacity of the state machine's event queue. */
  const QueueDepth: nat := 5

  /** The link retry configuration the application starts with: ten immediate retries, then every 30 minutes. */
  const MaxWifiRetries: nat := 10
  const WifiRetryIntervalMs: int := 30 * 60 * 1000

  /**
   * What the event queue carries. The code enqueues pointers to three string
   * constants and tells them apart by address; `Other` is any other pointer.
   */
  datatype InputTag = ReedSwitch | CommandOpenTag | CommandCloseTag | Other

  /** A side effect the dispatcher requests. Status and availability are published retained. */
  datatype Effect = PulseRelay | Publish(topic: string, payload: string) | Subscribe(topic: string)

  /** How an inbound message is handled. */
  datatype Inbound = EnqueueCommand(tag: InputTag) | IgnoredCommand | StatusUpdate | UnknownTopic

  /**
   * A reed-switch input reads closed at level 0 and open otherwise; the two
   * command tags give the two commands; anything else gives no event. The
   * timeout event is never produced here.
   */
  function InputToEvent(tag: InputTag, sensorLevel: int): (e: Event)
    ensures e == SensorClosed <==> tag == ReedSwitch && sensorLevel == 0
    ensures e == SensorOpen <==> tag == ReedSwitch && sensorLevel != 0
    ensures e == CommandOpen <==> tag == CommandOpenTag
    ensures e == CommandClose <==> tag == CommandCloseTag
    ensures e == None <==> tag == Other
    ensures e != TimerExpired
  {
    match tag
    case ReedSwitch => if sensorLevel == 0 then SensorClosed else SensorOpen
    case CommandOpenTag => CommandOpen
    case CommandCloseTag => CommandClose
    case Other => None
  }

  /**
   * A command is enqueued only for an exact match of topic and payload (same
   * length, same characters); every other message enqueues nothing.
   */
  function ClassifyMessage(topic: string, payload: string): (m: Inbound)
    ensures m == EnqueueCommand(CommandOpenTag) <==> topic == CommandTopic && payload == CommandOpenPayload
    ensures m == EnqueueCommand(CommandCloseTag) <==> topic == CommandTopic && payload == CommandClosePayload
    ensures m.EnqueueCommand? ==> m.tag == CommandOpenTag || m.tag == CommandCloseTag
    ensures m == IgnoredCommand <==>
              topic == CommandTopic && payload != CommandOpenPayload && payload != CommandClosePayload
    ensures m == StatusUpdate <==> topic == StatusTopic
  {
    if topic == CommandTopic then
      if payload == CommandOpenPayload then EnqueueCommand(CommandOpenTag)
      else if payload == CommandClosePayload then EnqueueCommand(CommandCloseTag)
      else IgnoredCommand
    else if topic == StatusTopic then StatusUpdate
    else UnknownTopic
  }

  /** The status message for a state. */
  function StatusMessage(s: State): Effect
  {
    Publish(StatusTopic, StateToString(s))
  }

  /**
   * The relay is pulsed exactly when the actions ask for a button press, and
   * the new state's name published exactly when they ask for a publish; the
   * pulse comes first.
   */
  function ExecuteStateActions(actions: Actions, newState: State): (effects: seq<Effect>)
    ensures PulseRelay in effects <==> actions.triggerButtonPress
    ensures StatusMessage(newState) in effects <==> actions.publishState
    ensures forall f :: f in effects ==> f == PulseRelay || f == StatusMessage(newState)
    ensures |effects| == (if actions.triggerButtonPress then 1 else 0) + (if actions.publishState then 1 else 0)
    ensures actions.triggerButtonPress ==> effects[0] == PulseRelay
  {
    (if actions.triggerButtonPress then [PulseRelay] else [])
    + (if actions.publishState then [StatusMessage(newState)] else [])
  }

  /** A timer tick publishes the new state only for a changed state that asks to be published, and never pulses the relay. */
  function TimerTickEffects(r: TransitionResult): (effects: seq<Effect>)
    ensures effects != [] <==> r.stateChanged && r.actions.publishState
    ensures forall f :: f in effects ==> f == StatusMessage(r.newState)
    ensures |effects| <= 1
  {
    if r.stateChanged && r.actions.publishState then [StatusMessage(r.newState)] else []
  }

  /**
   * A tick of the periodic timer publishes exactly when it resolves a moving
   * door's timeout, and what it publishes is the door's timeout state.
   */
  lemma TickPublishesOnlyOnTimeout(ctx: Context)
    ensures var st := UpdateTimer(ctx, StateTickMs);
            && (TimerTickEffects(st.result) != [] <==>
                  ctx.timerActive && ctx.timerElapsedMs + StateTickMs >= ctx.timeoutMs && ctx.currentState.InMotion())
            && (TimerTickEffects(st.result) != [] ==>
                  TimerTickEffects(st.result) == [StatusMessage(AfterTimeout(ctx.currentState))])
  {
  }

  /**
   * With the application's configuration the link is retried at once ten
   * times after it drops; the eleventh consecutive drop hands over to the
   * 30-minute timer.
   */
  lemma ApplicationLinkBudget()
    ensures var (final, rs) := WifiRetryManager.Run(WifiRetryManager.Init(MaxWifiRetries, WifiRetryIntervalMs),
                                                    WifiRetryManager.Repeat(WifiRetryManager.Disconnected, MaxWifiRetries + 1));
            && |rs| == 11
            && (forall i :: 0 <= i < 10 ==> rs[i].action == WifiRetryManager.Connect)
            && rs[10].action == WifiRetryManager.Fail
            && final.timerShouldBeRunning && final.retryIntervalMs == 1800000
  {
    WifiRetryManager.BudgetFromInit(MaxWifiRetries, WifiRetryIntervalMs);
    WifiRetryManager.RunKeepsBudget(WifiRetryManager.Init(MaxWifiRetries, WifiRetryIntervalMs),
                                    WifiRetryManager.Repeat(WifiRetryManager.Disconnected, MaxWifiRetries + 1));
  }

  /**
   * The application: the state machine, its event queue and the side effects
   * requested so far. The state machine is touched only by `HandleNext` and
   * `TimerTick`, so its timer keeps tracking the door's motion.
   */
  class Controller {
    var sm: StateMachine
    var queue: seq<InputTag>
    var outbox: seq<Effect>

    predicate Valid()
      reads this, sm
    {
      |queue| <= QueueDepth && TimerTracksMotion(sm.Model())
    }

    /** Start-up: the door state is not known yet, the queue is empty. */
    constructor ()
      ensures Valid() && fresh(sm)
      ensures sm.Model() == Init(Unknown) && queue == [] && outbox == []
    {
      var m := new StateMachine();
      m.Init(Unknown);
      sm := m;
      queue := [];
      outbox := [];
    }

    /** Non-blocking enqueue: a full queue drops the input. */
    method Send(tag: InputTag) returns (sent: bool)
      requires Valid()
      modifies this
      ensures Valid() && sm == old(sm) && outbox == old(outbox)
      ensures sent == (|old(queue)| < QueueDepth)
      ensures queue == if sent then old(queue) + [tag] else old(queue)
    {
      sent := |queue| < QueueDepth;
      if sent {
        queue := queue + [tag];
      }
    }

    /** Inbound message: an exact command is enqueued; anything else only logged. */
    method OnMqttData(topic: string, payload: string)
      requires Valid()
      modifies this
      ensures Valid() && sm == old(sm) && outbox == old(outbox)
      ensures var m := ClassifyMessage(topic, payload);
              queue == if m.EnqueueCommand? && |old(queue)| < QueueDepth then old(queue) + [m.tag] else old(queue)
    {
      var m := ClassifyMessage(topic, payload);
      if m.EnqueueCommand? {
        var _ := Send(m.tag);
      }
    }

    /** Broker connected: announce availability, subscribe, and ask for a sensor read to resynchronise. */
    method OnMqttConnected()
      requires Valid()
      modifies this
      ensures Valid() && sm == old(sm)
      ensures outbox == old(outbox) + [Publish(AvailabilityTopic, "available"), Subscribe(CommandTopic), Subscribe(StatusTopic)]
      ensures queue == if |old(queue)| < QueueDepth then old(queue) + [ReedSwitch] else old(queue)
    {
      outbox := outbox + [Publish(AvailabilityTopic, "available"), Subscribe(CommandTopic), Subscribe(StatusTopic)];
      var _ := Send(ReedSwitch);
    }

    /**
     * One pass of the state machine task: take the oldest input, read the
     * sensor level for a reed-switch input, and process the resulting event,
     * if any, executing the actions it returns. An empty queue leaves the task
     * waiting and changes nothing.
     */
    method HandleNext(sensorLevel: int) returns (handled: bool)
      requires Valid()
      modifies this, sm
      ensures Valid() && sm == old(sm)
      ensures handled == (old(queue) != [])
      ensures !handled ==> queue == old(queue) && outbox == old(outbox) && sm.Model() == old(sm.Model())
      ensures handled ==>
                && queue == old(queue)[1..]
                && var e := InputToEvent(old(queue)[0], sensorLevel);
                if e == None then
                  sm.Model() == old(sm.Model()) && outbox == old(outbox)
                else
                  var st := ProcessEvent(old(sm.Model()), e);
                  sm.Model() == st.next && outbox == old(outbox) + ExecuteStateActions(st.result.actions, st.result.newState)
    {
      handled := queue != [];
      if !handled {
        return;
      }
      var input := queue[0];
      queue := queue[1..];
      var level := if input == ReedSwitch then sensorLevel else 0;
      var event := InputToEvent(input, level);
      if event != None {
        GarageProperties.StimulusKeepsTimerTracksMotion(sm.Model(), GarageProperties.Deliver(event));
        var result := sm.ProcessEvent(event);
        outbox := outbox + ExecuteStateActions(result.actions, result.newState);
      }
    }

    /** The periodic timer: advance the state machine by one tick and publish a change it causes. */
    method TimerTick()
      requires Valid()
      modifies this, sm
      ensures Valid() && sm == old(sm) && queue == old(queue)
      ensures var st := UpdateTimer(old(sm.Model()), StateTickMs);
              sm.Model() == st.next && outbox == old(outbox) + TimerTickEffects(st.result)
    {
      GarageProperties.StimulusKeepsTimerTracksMotion(sm.Model(), GarageProperties.Tick(StateTickMs));
      var result := sm.UpdateTimer(StateTickMs);
      outbox := outbox + TimerTickEffects(result);
    }
  }
}
