/**
 * The wireless-link retry policy: a bounded number of immediate reconnect
 * attempts, then a hand-off to a long-interval timer that retries once per
 * firing. Operations are written state-in/state-out; the in-place record is
 * `WifiRetryContext.RetryManager`.
 */
module WifiRetryManager {

  /** What the caller should do next; Fail means the budget is spent and the long timer should start. */
  datatype Action = None | Connect | StopTimer | Fail

  datatype RetryState = RetryState(
    retryCount: int,
    maxRetries: int,
    retryIntervalMs: int,
    isConnected: bool,
    timerShouldBeRunning: bool)

  datatype RetryResult = RetryResult(
    action: Action,
    shouldCallbackConnected: bool,
    shouldCallbackDisconnected: bool,
    shouldCallbackFailed: bool,
    callbackRetryCount: int)

  datatype Step = Step(next: RetryState, result: RetryResult)

  /** A zero-filled result: no action, no callback. */
  const Empty: RetryResult := RetryResult(None, false, false, false, 0)

  /**
   * The retry count never goes below zero nor past the budget; with a
   * negative budget no immediate retry is ever made, so it stays zero.
   */
  predicate WithinBudget(s: RetryState)
  {
    0 <= s.retryCount && (s.retryCount == 0 || s.retryCount <= s.maxRetries)
  }

  /** The configuration fields, which no event changes. */
  predicate SameConfig(s: RetryState, t: RetryState)
  {
    t.maxRetries == s.maxRetries && t.retryIntervalMs == s.retryIntervalMs
  }

  function Init(maxRetries: int, retryIntervalMs: int): (s: RetryState)
    ensures s.retryCount == 0 && !s.isConnected && !s.timerShouldBeRunning
    ensures s.maxRetries == maxRetries && s.retryIntervalMs == retryIntervalMs
    ensures WithinBudget(s)
  {
    RetryState(0, maxRetries, retryIntervalMs, false, false)
  }

  /**
   * Link lost: retry at once while the budget lasts, reporting the new count;
   * otherwise report Fail and ask for the long timer. Either way the
   * disconnected callback is raised.
   */
  function OnDisconnect(s: RetryState): (st: Step)
    ensures !st.next.isConnected && SameConfig(s, st.next)
    ensures st.result.shouldCallbackDisconnected
    ensures !st.result.shouldCallbackConnected && !st.result.shouldCallbackFailed
    ensures st.result.callbackRetryCount == st.next.retryCount
    ensures s.retryCount < s.maxRetries ==>
              && st.result.action == Connect
              && st.next.retryCount == s.retryCount + 1
              && st.next.timerShouldBeRunning == s.timerShouldBeRunning
    ensures s.retryCount >= s.maxRetries ==>
              && st.result.action == Fail
              && st.next.retryCount == s.retryCount
              && st.next.timerShouldBeRunning
    ensures WithinBudget(s) ==> WithinBudget(st.next)
  {
    var down := s.(isConnected := false);
    if down.retryCount < down.maxRetries then
      var next := down.(retryCount := down.retryCount + 1);
      Step(next, Empty.(action := Connect, shouldCallbackDisconnected := true, callbackRetryCount := next.retryCount))
    else
      Step(down.(timerShouldBeRunning := true),
           Empty.(action := Fail, shouldCallbackDisconnected := true, callbackRetryCount := down.retryCount))
  }

  /**
   * Address obtained: connected, budget refilled, the long timer stopped if it
   * was running (StopTimer) and the connected callback raised.
   */
  function OnConnected(s: RetryState): (st: Step)
    ensures st.next.isConnected && st.next.retryCount == 0 && !st.next.timerShouldBeRunning
    ensures SameConfig(s, st.next)
    ensures st.result.action == (if s.timerShouldBeRunning then StopTimer else None)
    ensures st.result.shouldCallbackConnected
    ensures !st.result.shouldCallbackDisconnected && !st.result.shouldCallbackFailed
    ensures WithinBudget(st.next)
  {
    var up := s.(isConnected := true, retryCount := 0);
    if up.timerShouldBeRunning then
      Step(up.(timerShouldBeRunning := false), Empty.(action := StopTimer, shouldCallbackConnected := true))
    else
      Step(up, Empty.(action := None, shouldCallbackConnected := true))
  }

  /** Long timer fired: refill the budget and try once; nothing else changes. */
  function OnTimerExpired(s: RetryState): (st: Step)
    ensures st.next.retryCount == 0
    ensures st.next.isConnected == s.isConnected && st.next.timerShouldBeRunning == s.timerShouldBeRunning
    ensures SameConfig(s, st.next)
    ensures st.result.action == Connect
    ensures !st.result.shouldCallbackConnected && !st.result.shouldCallbackDisconnected
    ensures !st.result.shouldCallbackFailed
    ensures WithinBudget(st.next)
  {
    Step(s.(retryCount := 0), Empty.(action := Connect))
  }

  // ---------------------------------------------------------------------------
  // Event sequences

  datatype LinkEvent = Disconnected | GotIp | RetryTimerFired

  function Handle(s: RetryState, ev: LinkEvent): Step
  {
    match ev
    case Disconnected => OnDisconnect(s)
    case GotIp => OnConnected(s)
    case RetryTimerFired => OnTimerExpired(s)
  }

  /** The state after a sequence of events, and every result in order. */
  function Run(s: RetryState, evs: seq<LinkEvent>): (RetryState, seq<RetryResult>)
    decreases |evs|
  {
    if evs == [] then (s, [])
    else
      var st := Handle(s, evs[0]);
      var (final, rs) := Run(st.next, evs[1..]);
      (final, [st.result] + rs)
  }

  /** No event sequence ever raises the failed callback, changes the configuration or overruns the budget. */
  lemma {:induction false} RunKeepsBudget(s: RetryState, evs: seq<LinkEvent>)
    requires WithinBudget(s)
    ensures WithinBudget(Run(s, evs).0) && SameConfig(s, Run(s, evs).0)
    ensures |Run(s, evs).1| == |evs|
    ensures forall i :: 0 <= i < |evs| ==> !Run(s, evs).1[i].shouldCallbackFailed
    decreases |evs|
  {
    if evs != [] {
      var st := Handle(s, evs[0]);
      RunKeepsBudget(st.next, evs[1..]);
    }
  }

  function Repeat(ev: LinkEvent, n: nat): (evs: seq<LinkEvent>)
    ensures |evs| == n && forall i :: 0 <= i < n ==> evs[i] == ev
  {
    seq(n, _ => ev)
  }

  function Min(a: int, b: int): int { if a <= b then a else b }

  /**
   * Consecutive disconnects from a count within the budget: each retries at
   * once, reporting the next count, until the budget is spent; every one after
   * that reports Fail with the count held at the budget and the timer requested.
   */
  lemma {:induction false} DisconnectStreak(s: RetryState, n: nat)
    requires 0 <= s.retryCount <= s.maxRetries
    ensures var (final, rs) := Run(s, Repeat(Disconnected, n));
            && |rs| == n
            && (forall i :: 0 <= i < n ==>
                  if s.retryCount + i < s.maxRetries
                  then rs[i].action == Connect && rs[i].callbackRetryCount == s.retryCount + i + 1
                  else rs[i].action == Fail && rs[i].callbackRetryCount == s.maxRetries)
            && final.retryCount == Min(s.retryCount + n, s.maxRetries)
            && (final.isConnected <==> n == 0 && s.isConnected)
            && (final.timerShouldBeRunning <==> s.timerShouldBeRunning || s.retryCount + n > s.maxRetries)
    decreases n
  {
    if n > 0 {
      var st := OnDisconnect(s);
      assert Repeat(Disconnected, n)[1..] == Repeat(Disconnected, n - 1);
      DisconnectStreak(st.next, n - 1);
      var (final, rs) := Run(s, Repeat(Disconnected, n));
      var (final', rs') := Run(st.next, Repeat(Disconnected, n - 1));
      assert rs == [st.result] + rs';
      forall i | 1 <= i < n
        ensures if s.retryCount + i < s.maxRetries
                then rs[i].action == Connect && rs[i].callbackRetryCount == s.retryCount + i + 1
                else rs[i].action == Fail && rs[i].callbackRetryCount == s.maxRetries
      {
        assert rs[i] == rs'[i - 1];
      }
    }
  }

  /**
   * From initialisation with budget m: m disconnects in a row each retry at
   * once, and the next one reports Fail and requests the long timer.
   */
  lemma BudgetFromInit(m: nat, retryIntervalMs: int)
    ensures var (final, rs) := Run(Init(m, retryIntervalMs), Repeat(Disconnected, m + 1));
            && |rs| == m + 1
            && (forall i :: 0 <= i < m ==> rs[i].action == Connect && rs[i].callbackRetryCount == i + 1)
            && rs[m].action == Fail && rs[m].shouldCallbackDisconnected
            && final.retryCount == m && final.timerShouldBeRunning
  {
    DisconnectStreak(Init(m, retryIntervalMs), m + 1);
    var (final, rs) := Run(Init(m, retryIntervalMs), Repeat(Disconnected, m + 1));
    assert rs[m] == OnDisconnect(Run(Init(m, retryIntervalMs), Repeat(Disconnected, m)).0).result by {
      RunSplitsAtLast(Init(m, retryIntervalMs), Repeat(Disconnected, m + 1));
      assert Repeat(Disconnected, m + 1)[..m] == Repeat(Disconnected, m);
    }
  }

  /** The last result of a run is the last event applied to the state before it. */
  lemma {:induction false} RunSplitsAtLast(s: RetryState, evs: seq<LinkEvent>)
    requires evs != []
    ensures |Run(s, evs).1| == |evs|
    ensures Run(s, evs).1[|evs| - 1] == Handle(Run(s, evs[..|evs| - 1]).0, evs[|evs| - 1]).result
    ensures Run(s, evs).0 == Handle(Run(s, evs[..|evs| - 1]).0, evs[|evs| - 1]).next
    decreases |evs|
  {
    var st := Handle(s, evs[0]);
    if |evs| > 1 {
      RunSplitsAtLast(st.next, evs[1..]);
      assert evs[1..][..|evs[1..]| - 1] == evs[..|evs| - 1][1..];
      RunLength(st.next, evs[1..]);
    }
  }

  lemma {:induction false} RunLength(s: RetryState, evs: seq<LinkEvent>)
    ensures |Run(s, evs).1| == |evs|
    decreases |evs|
  {
    if evs != [] {
      RunLength(Handle(s, evs[0]).next, evs[1..]);
    }
  }

  /** Budget of two: connect, connect (counts 1, 2), fail with timer, then StopTimer on connect. */
  lemma ScenarioBudgetOfTwo()
    ensures var s0 := Init(2, 30000);
            var a := OnDisconnect(s0);
            var b := OnDisconnect(a.next);
            var c := OnDisconnect(b.next);
            var d := OnConnected(c.next);
            && a.result.action == Connect && a.next.retryCount == 1
            && b.result.action == Connect && b.next.retryCount == 2
            && c.result.action == Fail && c.next.timerShouldBeRunning
            && d.result.action == StopTimer && d.next.retryCount == 0
  {
  }
}
