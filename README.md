# Garage door controller: state machines in Dafny

This project models the logic core of a garage-door controller firmware. The
controller reports the door's state over a publish/subscribe broker and
accepts OPEN/CLOSE commands. It keeps its wireless link and broker session
alive through a retry policy. The model has four parts:

- **Door state machine** (`GarageStateMachine`, `GarageContext`,
  `GarageProperties`). It has five door states and six events. The transition
  table returns the new state, a changed flag and three actions: publish the
  state, pulse the relay ("button press") and start the timeout timer. The
  context carries the timeout bookkeeping. A timer update adds elapsed
  milliseconds while the timer runs. When the elapsed time reaches the
  timeout, the update stops the timer and processes a TimerExpired event.
- **Link retry manager** (`WifiRetryManager`, `WifiRetryContext`). It allows a
  budget of immediate reconnect attempts. Once the budget is spent, it reports
  FAIL and asks for a long-interval timer. That timer refills the budget and
  makes one attempt each time it fires. A successful connection (got IP)
  refills the budget and stops the timer.
- **Session retry manager** (`MqttRetryManager`, `MqttRetryContext`). It keeps
  a connected flag and a disconnect tally that only grows. It reconnects on
  every disconnect when auto-reconnect is on and never otherwise.
- **Dispatcher** (`SmartGarageDoor`). It maps queued inputs to events and
  classifies inbound messages by exact topic and payload. It chooses the side
  effects for each transition and drives the door timer with a 100 ms tick.
  `Controller` owns the state machine, the five-slot event queue and a log of
  requested side effects.

The door state machine and the two retry managers are each written twice:

- As state-in/state-out functions over value records, with their lemmas.
- As a class whose methods update the record in place, as the C functions
  update the struct they are given. Each method's postcondition says that it
  does exactly what the function of the same name computes.

The dispatcher has pure functions for its decisions (`InputToEvent`,
`ClassifyMessage`, `ExecuteStateActions`, `TimerTickEffects`) and one class,
`Controller`, whose methods have no same-named function. Their postconditions
give the new queue, the new side-effect log and the new state-machine record
directly, in terms of those functions and the state machine's functions.
Every `Controller` operation keeps the door timer consistent with the door's
motion.

Where the code and its documentation disagree, the model follows the code:

- `garage_state_to_string` returns upper-case words (`CLOSED`, ...). Its
  header comment and the unit tests expect lower-case status strings. The
  model proves the names are upper case (`GarageStateMachine.StateToString`).
- The header calls event processing a pure function. It updates the context
  in place. `GarageStateMachine.ProcessEvent` returns the new context;
  `GarageContext.StateMachine.ProcessEvent` mutates it.
- One might expect the timer to run exactly while the door is OPENING or
  CLOSING; the header gives the timeout "for OPENING/CLOSING states"
  (main/include/garage_state_machine.h:63). That is not true of every call
  sequence:
  - Initialising straight into OPENING leaves the timer stopped.
  - A TimerExpired event delivered directly while CLOSING moves the door to
    UNKNOWN with the timer still running.

  The model proves the invariant for the sequences the dispatcher can
  produce: events other than TimerExpired, plus timer updates, starting from
  a state that is not moving. It also proves both counterexamples.
- The periodic timer callback calls `garage_sm_update_timer` directly from
  the timer service (main/smart_garage_door.c:106), while the handler task
  calls `garage_sm_process_event` (main/smart_garage_door.c:183). Nothing
  serialises the two. The model runs them one after the other.

## Model

| member | source | states |
|---|---|---|
| GarageStateMachine.StateOrdinal | main/include/garage_state_machine.h:21-27 | states are numbered below five |
| GarageStateMachine.StateOfOrdinal | main/include/garage_state_machine.h:21-27 | every ordinal below five names a state with that ordinal |
| GarageStateMachine.EventOrdinal | main/include/garage_state_machine.h:32-39 | events are numbered below six, NONE first |
| GarageStateMachine.EventOfOrdinal | main/include/garage_state_machine.h:32-39 | every ordinal below six names an event with that ordinal |
| GarageStateMachine.StateToString | main/garage_state_machine.c:58-68 | the status name of a state is a non-empty upper-case word |
| GarageStateMachine.StateToDisplayString | main/garage_state_machine.c:70-80 | the display name equals the status name for every state |
| GarageStateMachine.Transition | main/garage_state_machine.c:85-206 | changed and publish both equal "new state differs"; relay pulse iff a command sets the door moving from CLOSED/OPEN/UNKNOWN; timer start iff the state changes into OPENING or CLOSING; sensor-closed always ends in CLOSED; NONE is a no-op; UNKNOWN is entered only by a CLOSING timeout |
| GarageStateMachine.Init | main/garage_state_machine.c:10-20 | given state, 15000 ms timeout, stopped timer at zero; the timer tracks motion iff the state is not a moving one |
| GarageStateMachine.InitWithConfig | main/garage_state_machine.c:22-32 | a positive configured timeout is used, a non-positive one gives exactly the default init |
| GarageStateMachine.ProcessEvent | main/garage_state_machine.c:208-261 | new state is the table's; timer start sets active with zero elapsed; a stable new state stops and zeroes the timer; otherwise the timer fields are kept; the timeout never changes; well-formedness is kept |
| GarageStateMachine.UpdateTimer | main/garage_state_machine.c:263-286 | stopped timer: context and result unchanged; below the timeout only the elapsed time grows; at or past it the timer stops and the result is the TimerExpired transition: the door takes its timeout state (OPENING to OPEN, CLOSING to UNKNOWN), published exactly when it changes, without relay or restart; a change happens only from a moving state |
| GarageContext.StateMachine.constructor | main/smart_garage_door.c:72-73 | the static context before init is zero-filled |
| GarageContext.StateMachine.Init | main/garage_state_machine.c:12-20 | updates the record in place to the value of the init function |
| GarageContext.StateMachine.InitWithConfig | main/garage_state_machine.c:22-32 | updates the record in place to the value of the configured init |
| GarageContext.StateMachine.GetState | main/garage_state_machine.c:34-40 | read-only observer of the current state |
| GarageContext.StateMachine.IsTimerActive | main/garage_state_machine.c:42-48 | read-only observer of the timer flag |
| GarageContext.StateMachine.GetTimerElapsed | main/garage_state_machine.c:50-56 | read-only observer of elapsed time, below the timeout in a well-formed record |
| GarageContext.StateMachine.ProcessEvent | main/garage_state_machine.c:208-261 | in-place update and result agree with the state-in/state-out ProcessEvent |
| GarageContext.StateMachine.UpdateTimer | main/garage_state_machine.c:263-286 | in-place update and result agree with the state-in/state-out UpdateTimer |
| GarageProperties.TransitionFollowsTable | main/garage_state_machine.c:103-206 | the handlers agree with an independent twelve-entry table; every unlisted pair is a no-op with all flags false |
| GarageProperties.OrdinalsAreExact | main/include/garage_state_machine.h:21-39 | ordinals are injective: exactly five states and six events |
| GarageProperties.StateNamesAreDistinctAndUpperCase | main/garage_state_machine.c:58-68 | distinct states publish distinct names, none starting with a lower-case letter |
| GarageProperties.StimulusKeepsTimerTracksMotion | main/garage_state_machine.c:245-258 | one event other than TimerExpired, or one timer update, keeps "timer active iff moving" |
| GarageProperties.StimulusKeepsTimerImpliesMotion | main/garage_state_machine.c:245-258 | the same call keeps "timer active implies moving" |
| GarageProperties.DispatcherTracesKeepTimerTracksMotion | main/garage_state_machine.c:208-286 | every sequence of non-timeout events and timer updates keeps "timer active iff moving" |
| GarageProperties.DispatcherTracesKeepTimerImpliesMotion | main/garage_state_machine.c:208-286 | the same sequences keep "timer active implies moving" from any well-formed context |
| GarageProperties.InitIntoMotionBreaksTracking | main/garage_state_machine.c:12-20 | init into OPENING leaves the timer stopped while moving |
| GarageProperties.InjectedTimeoutBreaksTracking | main/garage_state_machine.c:150-152 | a TimerExpired delivered while CLOSING leaves UNKNOWN with the timer running |
| GarageProperties.TicksWhileStopped | main/garage_state_machine.c:265-273 | any number of updates on a stopped timer change nothing |
| GarageProperties.TicksFireExactlyOnce | main/garage_state_machine.c:275-285 | updates totalling less than the remaining time only add to elapsed; reaching the timeout changes state exactly once to the timeout state and stops the timer |
| GarageProperties.PeriodicTicksResolveMotion | main/smart_garage_door.c:416-423 | after a door is set moving, n equal ticks resolve it iff n times the tick reaches the timeout, with exactly one change |
| GarageProperties.ScenarioOpenCommandThenTimeout | test/test_state_machine.c:502-523 | CLOSED, OPEN command, full timeout: OPENING with pulse and timer, then OPEN published, timer stopped |
| GarageProperties.ScenarioSensorClosesOpenDoor | test/test_state_machine.c:167-180 | OPEN and sensor-closed: CLOSED without pulse |
| GarageProperties.ScenarioClosingTimesOut | test/test_state_machine.c:528-544 | CLOSING and a full timeout: UNKNOWN, timer stopped |
| GarageProperties.ScenarioCustomTimeoutBoundary | test/test_state_machine.c:549-568 | 5000 ms timeout: 4999 ms changes nothing, one more fires |
| WifiRetryManager.Init | main/wifi/wifi_retry_manager.c:9-18 | zero count, disconnected, no timer, budget and interval stored as given |
| WifiRetryManager.OnDisconnect | main/wifi/wifi_retry_manager.c:20-45 | always disconnected with the disconnected callback; within budget: CONNECT and count plus one reported; budget spent: FAIL, count kept, timer requested; budget bound kept |
| WifiRetryManager.OnConnected | main/wifi/wifi_retry_manager.c:47-68 | connected, count zero, timer flag cleared; STOP_TIMER iff the timer flag was set, else NONE; connected callback always |
| WifiRetryManager.OnTimerExpired | main/wifi/wifi_retry_manager.c:70-83 | count zero, CONNECT, no callbacks, connection and timer flags untouched |
| WifiRetryManager.RunKeepsBudget | main/wifi/wifi_retry_manager.c:20-83 | any event sequence keeps the count within budget and the configuration, and never raises the failed callback |
| WifiRetryManager.DisconnectStreak | main/wifi/wifi_retry_manager.c:30-42 | consecutive disconnects retry at once with counts rising by one until the budget, then FAIL with the count held and the timer requested |
| WifiRetryManager.BudgetFromInit | test/test_wifi_retry.c:112-133 | from init with budget m: m CONNECTs with counts 1..m, then FAIL with the timer requested |
| WifiRetryManager.ScenarioBudgetOfTwo | test/test_wifi_retry.c:162-183 | budget two: CONNECT, CONNECT, FAIL, then STOP_TIMER and count zero on connect |
| WifiRetryContext.RetryManager.Init | main/wifi/wifi_retry_manager.c:9-18 | the record starts as the init function's value |
| WifiRetryContext.RetryManager.OnDisconnect | main/wifi/wifi_retry_manager.c:20-45 | in-place update and result agree with OnDisconnect |
| WifiRetryContext.RetryManager.OnConnected | main/wifi/wifi_retry_manager.c:47-68 | in-place update and result agree with OnConnected |
| WifiRetryContext.RetryManager.OnTimerExpired | main/wifi/wifi_retry_manager.c:70-83 | in-place update and result agree with OnTimerExpired |
| WifiRetryContext.RetryManager.GetCount | main/wifi/wifi_retry_manager.c:85-88 | read-only observer of the count, within budget in a bounded record |
| WifiRetryContext.RetryManager.IsConnected | main/wifi/wifi_retry_manager.c:90-93 | read-only observer of the connected flag |
| WifiRetryContext.RetryManager.ShouldTimerRun | main/wifi/wifi_retry_manager.c:95-98 | read-only observer of the timer flag |
| MqttRetryManager.Init | main/mqtt/mqtt_retry_manager.c:9-16 | disconnected, zero tally, auto-reconnect as given |
| MqttRetryManager.OnDisconnect | main/mqtt/mqtt_retry_manager.c:18-38 | disconnected, tally plus exactly one, auto-reconnect kept; RECONNECT iff auto-reconnect; disconnected callback always |
| MqttRetryManager.OnConnected | main/mqtt/mqtt_retry_manager.c:40-53 | connected, nothing else changed (tally kept); NONE with the connected callback |
| MqttRetryManager.RunCountsDisconnects | main/mqtt/mqtt_retry_manager.c:18-53 | over any event sequence the tally grows by the number of disconnects and auto-reconnect is unchanged |
| MqttRetryManager.TallySinceInit | test/test_mqtt_retry.c:231-250 | since init the tally equals the number of disconnects |
| MqttRetryManager.DisconnectCountNeverDecreases | main/mqtt/mqtt_retry_manager.c:26-27 | extending an event sequence never lowers the tally |
| MqttRetryManager.ScenarioThreeDisconnects | test/test_mqtt_retry.c:236-246 | three connect/disconnect rounds give a tally of three |
| MqttRetryContext.RetryManager.Init | main/mqtt/mqtt_retry_manager.c:9-16 | the record starts as the init function's value |
| MqttRetryContext.RetryManager.OnDisconnect | main/mqtt/mqtt_retry_manager.c:18-38 | in-place update and result agree with OnDisconnect |
| MqttRetryContext.RetryManager.OnConnected | main/mqtt/mqtt_retry_manager.c:40-53 | in-place update and result agree with OnConnected |
| MqttRetryContext.RetryManager.GetDisconnectCount | main/mqtt/mqtt_retry_manager.c:55-58 | read-only observer of the tally |
| MqttRetryContext.RetryManager.IsConnected | main/mqtt/mqtt_retry_manager.c:60-63 | read-only observer of the connected flag |
| SmartGarageDoor.InputToEvent | main/smart_garage_door.c:122-136 | reed switch: CLOSED sensor at level 0, OPEN sensor otherwise; command tags give commands; anything else NONE; never TimerExpired |
| SmartGarageDoor.ClassifyMessage | main/smart_garage_door.c:253-268 | OPEN/CLOSE enqueued iff topic and payload match exactly; other command payloads ignored; status topic only echoed |
| SmartGarageDoor.ExecuteStateActions | main/smart_garage_door.c:141-153 | relay pulse iff button press requested; status publish of the new state's name iff publish requested; pulse first; nothing else |
| SmartGarageDoor.TimerTickEffects | main/smart_garage_door.c:104-116 | a tick publishes at most the new state's name, only when the state changed and asks to be published |
| SmartGarageDoor.TickPublishesOnlyOnTimeout | main/smart_garage_door.c:104-116 | a 100 ms tick publishes iff it resolves a moving door's timeout, and publishes the timeout state |
| SmartGarageDoor.ApplicationLinkBudget | main/smart_garage_door.c:43-44 | with ten retries and a 30-minute interval, ten drops retry at once and the eleventh hands over to the timer |
| SmartGarageDoor.Controller.constructor | main/smart_garage_door.c:409-413 | the door starts UNKNOWN with an empty queue |
| SmartGarageDoor.Controller.Send | main/smart_garage_door.c:255-261 | a non-blocking enqueue appends when fewer than five items wait, else drops |
| SmartGarageDoor.Controller.OnMqttData | main/smart_garage_door.c:253-268 | exactly the classified command is enqueued, nothing else changes |
| SmartGarageDoor.Controller.OnMqttConnected | main/smart_garage_door.c:352-364 | availability published, both topics subscribed, a reed-switch read enqueued |
| SmartGarageDoor.Controller.HandleNext | main/smart_garage_door.c:158-194 | oldest input consumed; a NONE event leaves the state machine untouched; otherwise the event is processed and its actions executed; timer-tracks-motion kept |
| SmartGarageDoor.Controller.TimerTick | main/smart_garage_door.c:104-116 | the state machine advances by exactly 100 ms and the tick's effects are requested; timer-tracks-motion kept |

## Left out

- NULL-pointer branches of every C function (null context, null retry state, null config) are not modelled; Dafny references and values are never null.
- Out-of-range enumeration values (the `default:` arms in the state switches) cannot be represented by the Dafny datatypes.
- GarageStateMachine.UpdateTimer: requires a non-negative delta and does not model 32-bit overflow of `timer_elapsed_ms + delta_ms`; integers are unbounded.
- MqttRetryManager.OnDisconnect: does not model 32-bit overflow of the disconnect tally after 2^31 disconnects; the tally is an unbounded integer.
- The Wi-Fi retry count needs no overflow model: it never exceeds the budget, which is itself a C `int`.
- Log output (`ESP_LOGI`), the display-string log line and the status-topic echo are not modelled beyond their classification.
- The relay task (a 500 ms pulse on the relay pin) is the `PulseRelay` effect; GPIO configuration, pin levels and task creation are hardware.
- The reed-switch interrupt handler (main/smart_garage_door.c:80-84) is not modelled; it would enqueue a reed-switch input like `Controller.Send`. The sensor level read at dispatch time is a parameter of `HandleNext`.
- The blocking queue receive is modelled as `HandleNext` doing nothing on an empty queue; tasks, interrupts and the timer service run concurrently in the source, but the model applies one operation at a time.
- `app_main` is modelled only for the door's initial state, the queue depth and the link retry configuration; chip information, NVS and network initialisation are platform calls.
- The TEST_MODE build (its `_TEST` topics, its simulated reed-switch tags and the simulation task) is not modelled.
- The Wi-Fi and MQTT event glue (main/wifi/wifi_impl.c, main/mqtt/mqtt_impl.c) that routes manager actions to timers and SDK calls, the superseded copies main/wifi_impl.c and main/mqtt_impl.c, the HAL layers and interface headers are not part of this model; they are SDK calls without policy of their own.
- The broker's last-will message ("unavailable") is broker configuration and is not modelled.
- test-integration/mqtt_client.py is a network client and is not part of this model.
