/**
 * The link retry record as the firmware keeps it, updated in place by the
 * event handlers. Each method does to the record exactly what the function
 * of the same name in `WifiRetryManager` describes.
 */
module WifiRetryContext {
  import opened WifiRetryManager

  class RetryManager {
    var retryCount: int
    var maxRetries: int
    var retryIntervalMs: int
    var isConnected: bool
    var timerShouldBeRunning: bool

    /** The record's current value. */
    function Model(): RetryState
      reads this
    {
      RetryState(retryCount, maxRetries, retryIntervalMs, isConnected, timerShouldBeRunning)
    }

    /** Clears the record and stores the budget and long interval as given. */
    constructor Init(maxRetries: int, retryIntervalMs: int)
      ensures Model() == WifiRetryManager.Init(maxRetries, retryIntervalMs)
    {
      retryCount := 0;
      this.maxRetries := maxRetries;
      this.retryIntervalMs := retryIntervalMs;
      isConnected := false;
      timerShouldBeRunning := false;
    }

    method OnDisconnect() returns (r: RetryResult)
      modifies this
      ensures WifiRetryManager.OnDisconnect(old(Model())) == Step(Model(), r)
    {
      r := Empty;
      isConnected := false;
      if retryCount < maxRetries {
        retryCount := retryCount + 1;
        r := r.(action := Connect, shouldCallbackDisconnected := true, callbackRetryCount := retryCount);
      } else {
        r := r.(action := Fail, shouldCallbackDisconnected := true, callbackRetryCount := retryCount);
        timerShouldBeRunning := true;
      }
    }

    method OnConnected() returns (r: RetryResult)
      modifies this
      ensures WifiRetryManager.OnConnected(old(Model())) == Step(Model(), r)
    {
      r := Empty;
      isConnected := true;
      retryCount := 0;
      if timerShouldBeRunning {
        r := r.(action := StopTimer);
        timerShouldBeRunning := false;
      } else {
        r := r.(action := None);
      }
      r := r.(shouldCallbackConnected := true);
    }

    method OnTimerExpired() returns (r: RetryResult)
      modifies this
      ensures WifiRetryManager.OnTimerExpired(old(Model())) == Step(Model(), r)
    {
      r := Empty;
      retryCount := 0;
      r := r.(action := Connect);
    }

    /** Observer: immediate retries made since the last reset. */
    function GetCount(): (n: int)
      reads this
      ensures n == Model().retryCount
      ensures WithinBudget(Model()) ==> 0 <= n && (n == 0 || n <= maxRetries)
    {
      retryCount
    }

    /** Observer: whether the link is up. */
    function IsConnected(): (b: bool)
      reads this
      ensures b == Model().isConnected
    {
      isConnected
    }

    /** Observer: whether the long-interval retry timer should be running. */
    function ShouldTimerRun(): (b: bool)
      reads this
      ensures b == Model().timerShouldBeRunning
    {
      timerShouldBeRunning
    }
  }
}
