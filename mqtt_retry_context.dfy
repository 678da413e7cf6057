/**
 * The session retry record as the firmware keeps it, updated in place by the
 * event handlers. Each method does to the record exactly what the function
 * of the same name in `MqttRetryManager` describes.
 */
module MqttRetryContext {
  import opened MqttRetryManager

  class RetryManager {
    var isConnected: bool
    var disconnectCount: int
    var shouldReconnect: bool

    /** The record's current value. */
    function Model(): RetryState
      reads this
    {
      RetryState(isConnected, disconnectCount, shouldReconnect)
    }

    constructor Init(autoReconnect: bool)
      ensures Model() == MqttRetryManager.Init(autoReconnect)
    {
      shouldReconnect := autoReconnect;
      isConnected := false;
      disconnectCount := 0;
    }

    method OnDisconnect() returns (r: RetryResult)
      modifies this
      ensures MqttRetryManager.OnDisconnect(old(Model())) == Step(Model(), r)
    {
      isConnected := false;
      disconnectCount := disconnectCount + 1;
      r := RetryResult(None, false, true);
      if shouldReconnect {
        r := r.(action := Reconnect);
      }
    }

    method OnConnected() returns (r: RetryResult)
      modifies this
      ensures MqttRetryManager.OnConnected(old(Model())) == Step(Model(), r)
    {
      isConnected := true;
      r := RetryResult(None, true, false);
    }

    /** Observer: disconnects since initialisation. */
    function GetDisconnectCount(): (n: int)
      reads this
      ensures n == Model().disconnectCount
    {
      disconnectCount
    }

    /** Observer: whether the session is up. */
    function IsConnected(): (b: bool)
      reads this
      ensures b == Model().isConnected
    {
      isConnected
    }
  }
}
