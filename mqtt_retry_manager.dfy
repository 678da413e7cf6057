/**
 * The messaging-session reconnect policy: reconnect on every disconnect when
 * auto-reconnect is on, never otherwise, and count disconnects for
 * diagnostics. Operations are written state-in/state-out; the in-place
 * record is `MqttRetryContext.RetryManager`.
 */
module MqttRetryManager {

  /** The only two actions: there is no timer and no failure. */
  datatype Action = None | Reconnect

  datatype RetryState = RetryState(isConnected: bool, disconnectCount: int, shouldReconnect: bool)

  datatype RetryResult = RetryResult(action: Action, shouldCallbackConnected: bool, shouldCallbackDisconnected: bool)

  datatype Step = Step(next: RetryState, result: RetryResult)

  function Init(autoReconnect: bool): (s: RetryState)
    ensures !s.isConnected && s.disconnectCount == 0 && s.shouldReconnect == autoReconnect
  {
    RetryState(false, 0, autoReconnect)
  }

  /** Session lost: counted, reported, and reconnected exactly when auto-reconnect is on. */
  function OnDisconnect(s: RetryState): (st: Step)
    ensures !st.next.isConnected
    ensures st.next.disconnectCount == s.disconnectCount + 1
    ensures st.next.shouldReconnect == s.shouldReconnect
    ensures st.result.action == Reconnect <==> s.shouldReconnect
    ensures st.result.shouldCallbackDisconnected && !st.result.shouldCallbackConnected
  {
    var down := s.(isConnected := false, disconnectCount := s.disconnectCount + 1);
    Step(down, RetryResult(if down.shouldReconnect then Reconnect else None, false, true))
  }

  /** Session up: reported, no action, and the disconnect tally kept. */
  function OnConnected(s: RetryState): (st: Step)
    ensures st.next == s.(isConnected := true)
    ensures st.result == RetryResult(None, true, false)
  {
    Step(s.(isConnected := true), RetryResult(None, true, false))
  }

  // ---------------------------------------------------------------------------
  // Event sequences

  datatype SessionEvent = Disconnected | Connected

  function Handle(s: RetryState, ev: SessionEvent): Step
  {
    match ev
    case Disconnected => OnDisconnect(s)
    case Connected => OnConnected(s)
  }

  function Run(s: RetryState, evs: seq<SessionEvent>): RetryState
    decreases |evs|
  {
    if evs == [] then s else Run(Handle(s, evs[0]).next, evs[1..])
  }

  /** How many disconnect events a sequence holds. */
  function CountDisconnects(evs: seq<SessionEvent>): nat
    decreases |evs|
  {
    if evs == [] then 0 else (if evs[0] == Disconnected then 1 else 0) + CountDisconnects(evs[1..])
  }

  /**
   * The disconnect tally grows by exactly the number of disconnects seen;
   * auto-reconnect keeps the value it was initialised with.
   */
  lemma {:induction false} RunCountsDisconnects(s: RetryState, evs: seq<SessionEvent>)
    ensures Run(s, evs).disconnectCount == s.disconnectCount + CountDisconnects(evs)
    ensures Run(s, evs).shouldReconnect == s.shouldReconnect
    decreases |evs|
  {
    if evs != [] {
      RunCountsDisconnects(Handle(s, evs[0]).next, evs[1..]);
    }
  }

  /** Since initialisation, the tally is the number of disconnects and auto-reconnect is as configured. */
  lemma TallySinceInit(autoReconnect: bool, evs: seq<SessionEvent>)
    ensures Run(Init(autoReconnect), evs).disconnectCount == CountDisconnects(evs)
    ensures Run(Init(autoReconnect), evs).shouldReconnect == autoReconnect
  {
    RunCountsDisconnects(Init(autoReconnect), evs);
  }

  lemma {:induction false} RunAppend(s: RetryState, evs: seq<SessionEvent>, more: seq<SessionEvent>)
    ensures Run(s, evs + more) == Run(Run(s, evs), more)
    decreases |evs|
  {
    if evs == [] {
      assert evs + more == more;
    } else {
      assert (evs + more)[0] == evs[0] && (evs + more)[1..] == evs[1..] + more;
      RunAppend(Handle(s, evs[0]).next, evs[1..], more);
    }
  }

  /** Extending a sequence of events never lowers the disconnect tally. */
  lemma DisconnectCountNeverDecreases(s: RetryState, evs: seq<SessionEvent>, more: seq<SessionEvent>)
    ensures Run(s, evs).disconnectCount <= Run(s, evs + more).disconnectCount
  {
    RunAppend(s, evs, more);
    RunCountsDisconnects(Run(s, evs), more);
  }

  /** Connect and disconnect three times: a tally of three, and the session is down. */
  lemma ScenarioThreeDisconnects()
    ensures var s := Run(Init(true), [Connected, Disconnected, Connected, Disconnected, Connected, Disconnected]);
            s.disconnectCount == 3 && !s.isConnected
  {
    TallySinceInit(true, [Connected, Disconnected, Connected, Disconnected, Connected, Disconnected]);
  }
}
