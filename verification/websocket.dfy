/**
 * The live price-feed connection manager: one socket reference at a time, a linear,
 * capped reconnect backoff, a long fallback retry after ten attempts, and a flag,
 * set when the host disconnects on purpose, that suppresses the reconnect after a
 * close. The flag does not stop a failed socket creation from scheduling a retry,
 * and `disconnect` cancels no timer that is already pending.
 *
 * Timers are not run here: a `setTimeout` becomes a `Timer` appended to `timers`,
 * and `FireTimer` stands for the moment one of them elapses. Socket events
 * (`OnOpen`, `OnClose`, `OnError`, `OnMessage`) may arrive at any time, since
 * the handlers never check which socket raised them.
 */
module WebSocket {
  import opened Wrappers
  import opened CryptoSlice

  const MaxReconnectAttempts: int := 10
  /** Base backoff step, in milliseconds. */
  const ReconnectDelay: int := 3000
  /** The attempt count at which the backoff stops growing. */
  const BackoffCap: int := 5
  /**
   * A pending `setTimeout` callback: a backoff retry after `delay` ms, or the
   * fallback, due after 60000 ms, that resets the counter.
   */
  datatype Timer = Backoff(delay: int) | LongRetry

  /** One entry of a frame: the coin id and its price string run through `parseFloat` (NaN is None). */
  datatype FrameEntry = FrameEntry(coinId: string, parsed: Option<real>)

  /** The delay scheduled by the attempt numbered `attempts`: 3000 ms per attempt, capped at 5. */
  function BackoffDelay(attempts: int): (d: int)
    requires 1 <= attempts <= MaxReconnectAttempts
    ensures ReconnectDelay <= d <= ReconnectDelay * BackoffCap
    ensures d % ReconnectDelay == 0
    ensures attempts <= BackoffCap ==> d / ReconnectDelay == attempts
    ensures attempts >= BackoffCap ==> d == 15000
  {
    ReconnectDelay * (if attempts < BackoffCap then attempts else BackoffCap)
  }

  /** The reconnect counter after `handleReconnect`. */
  function NextAttempt(attempts: int): (next: int)
    ensures 0 <= attempts <= MaxReconnectAttempts ==> 0 < next <= MaxReconnectAttempts
    ensures next == attempts + 1 || next == attempts
    ensures next == attempts ==> attempts >= MaxReconnectAttempts
  {
    if attempts < MaxReconnectAttempts then attempts + 1 else attempts
  }

  /** The timer `handleReconnect` schedules from a given counter. */
  function RetryTimer(attempts: int): (t: Timer)
    requires 0 <= attempts <= MaxReconnectAttempts
    ensures t.LongRetry? <==> attempts == MaxReconnectAttempts
    ensures t.Backoff? ==> t.delay == BackoffDelay(attempts + 1)
  {
    if attempts < MaxReconnectAttempts then Backoff(BackoffDelay(attempts + 1)) else LongRetry
  }

  /** Every timer the service ever schedules has one of these shapes. */
  predicate WellFormedTimer(t: Timer) {
    t.LongRetry? || (ReconnectDelay <= t.delay <= ReconnectDelay * BackoffCap && t.delay % ReconnectDelay == 0)
  }

  /**
   * The counter `handleReconnect` starts from on the next failure, once the timer
   * scheduled from `attempts` has fired: a backoff leaves the incremented counter,
   * and the fallback's callback resets it to 0 before connecting. The counter thus
   * runs round the cycle 0, 1, ..., 10, 0, ...
   */
  function CounterAfterFire(attempts: int): (next: int)
    requires 0 <= attempts <= MaxReconnectAttempts
    ensures 0 <= next <= MaxReconnectAttempts
    ensures next == (attempts + 1) % (MaxReconnectAttempts + 1)
  {
    if RetryTimer(attempts).LongRetry? then 0 else NextAttempt(attempts)
  }

  /** The counter `handleReconnect` starts from after `m` failures in a row from `attempts`. */
  function CounterAfter(attempts: int, m: nat): (c: int)
    requires 0 <= attempts <= MaxReconnectAttempts
    ensures 0 <= c <= MaxReconnectAttempts
    decreases m
  {
    if m == 0 then attempts else CounterAfter(CounterAfterFire(attempts), m - 1)
  }

  /**
   * The timers scheduled by `n` failures in a row, starting from `attempts`: each
   * scheduled timer fires in turn and the `connect` it runs fails again.
   */
  function Retries(attempts: int, n: nat): (r: seq<Timer>)
    requires 0 <= attempts <= MaxReconnectAttempts
    ensures |r| == n
    ensures n > 0 ==> r[n - 1] == RetryTimer(CounterAfter(attempts, n - 1))
    decreases n
  {
    if n == 0 then [] else [RetryTimer(attempts)] + Retries(CounterAfterFire(attempts), n - 1)
  }

  /**
   * From a fresh counter, failing connections schedule 3000, 6000, 9000, 12000 and
   * 15000 ms, then 15000 ms up to the tenth attempt, then the 60 s fallback.
   */
  lemma BackoffSchedule()
    ensures Retries(0, 11) ==
      [Backoff(3000), Backoff(6000), Backoff(9000), Backoff(12000), Backoff(15000),
       Backoff(15000), Backoff(15000), Backoff(15000), Backoff(15000), Backoff(15000),
       LongRetry]
  {
  }

  /** When the fallback's connect fails too, the schedule starts over at 3000 ms. */
  lemma RetriesAfterFallback(n: nat)
    ensures Retries(MaxReconnectAttempts, n + 1) == [LongRetry] + Retries(0, n)
  {
  }

  /** A run of failures splits at any point: the rest goes on from the counter reached there. */
  lemma {:induction false} RetriesSplit(attempts: int, m: nat, n: nat)
    requires 0 <= attempts <= MaxReconnectAttempts
    ensures Retries(attempts, m + n) == Retries(attempts, m) + Retries(CounterAfter(attempts, m), n)
    decreases m
  {
    if m > 0 {
      var next := CounterAfterFire(attempts);
      RetriesSplit(next, m - 1, n);
      assert Retries(attempts, m + n) == [RetryTimer(attempts)] + Retries(next, m - 1 + n);
    }
  }

  /**
   * Eleven failures from a fresh counter bring it back to 0, so the schedule repeats
   * for ever: ten backoffs and one fallback, again and again.
   */
  lemma RetriesRepeat(n: nat)
    ensures Retries(0, MaxReconnectAttempts + 1 + n) ==
      Retries(0, MaxReconnectAttempts + 1) + Retries(0, n)
  {
    RetriesSplit(0, MaxReconnectAttempts + 1, n);
    assert CounterAfter(0, MaxReconnectAttempts + 1) == 0;
  }

  /** Whatever the counter and however many failures, every scheduled timer is well formed. */
  lemma {:induction false} RetriesWellFormed(attempts: int, n: nat)
    requires 0 <= attempts <= MaxReconnectAttempts
    ensures forall k :: 0 <= k < |Retries(attempts, n)| ==> WellFormedTimer(Retries(attempts, n)[k])
    ensures |Retries(attempts, n)| == n
    decreases n
  {
    if n > 0 {
      RetriesWellFormed(CounterAfterFire(attempts), n - 1);
    }
  }

  /** The ticks a frame forwards: exactly the entries whose parsed price is a number above 0, in order. */
  function ForwardedTicks(entries: seq<FrameEntry>): (ticks: seq<PriceTick>)
    ensures |ticks| <= |entries|
    ensures forall k :: 0 <= k < |ticks| ==> ticks[k].price > 0.0
  {
    if entries == [] then []
    else
      var init := entries[..|entries| - 1];
      var e := entries[|entries| - 1];
      assert entries == init + [e];
      if e.parsed.Some? && e.parsed.value > 0.0 then
        ForwardedTicks(init) + [PriceTick(e.coinId, e.parsed.value)]
      else
        ForwardedTicks(init)
  }

  /** A tick is forwarded exactly when the frame holds its coin with that positive price. */
  lemma {:induction false} ForwardedExactly(entries: seq<FrameEntry>, t: PriceTick)
    ensures t in ForwardedTicks(entries) <==> FrameEntry(t.coinId, Some(t.price)) in entries && t.price > 0.0
  {
    if entries != [] {
      var init := entries[..|entries| - 1];
      ForwardedExactly(init, t);
      assert entries == init + [entries[|entries| - 1]];
    }
  }

  /** Forwarding one more entry of a frame is one more `updatePrice`, when the entry is valid. */
  lemma ForwardedOneMore(start: map<string, CoinEntry>, entries: seq<FrameEntry>, i: nat)
    requires i < |entries|
    ensures var e := entries[i];
      var before := ApplyTicks(start, ForwardedTicks(entries[..i]));
      ApplyTicks(start, ForwardedTicks(entries[..i + 1])) ==
        if e.parsed.Some? && e.parsed.value > 0.0 then PriceUpdated(before, e.coinId, e.parsed.value)
        else before
  {
    var e := entries[i];
    assert entries[..i + 1][..i] == entries[..i];
    if e.parsed.Some? && e.parsed.value > 0.0 {
      ApplyOneMoreTick(start, ForwardedTicks(entries[..i]), PriceTick(e.coinId, e.parsed.value));
    }
  }

  /** The service object; `store` is the store it dispatches into. */
  class PriceFeed {
    const store: CryptoStore
    /** Whether `this.socket` holds a socket. */
    var hasSocket: bool
    var reconnectAttempts: int
    var isIntentionalDisconnect: bool
    /** Callbacks handed to `setTimeout` that have not run yet. */
    var timers: seq<Timer>

    ghost predicate Valid()
      reads this
    {
      && 0 <= reconnectAttempts <= MaxReconnectAttempts
      && forall k :: 0 <= k < |timers| ==> WellFormedTimer(timers[k])
    }

    constructor(store: CryptoStore)
      ensures Valid() && this.store == store
      ensures !hasSocket && reconnectAttempts == 0 && !isIntentionalDisconnect && timers == []
    {
      this.store := store;
      hasSocket := false;
      reconnectAttempts := 0;
      isIntentionalDisconnect := false;
      timers := [];
    }

    /**
     * `handleReconnect`: below the ceiling, count the attempt and schedule its backoff;
     * at the ceiling, report `disconnected` and schedule the 60 s fallback.
     */
    method HandleReconnect()
      requires Valid()
      modifies this, store
      ensures Valid()
      ensures reconnectAttempts == NextAttempt(old(reconnectAttempts))
      ensures timers == old(timers) + [RetryTimer(old(reconnectAttempts))]
      ensures hasSocket == old(hasSocket) && isIntentionalDisconnect == old(isIntentionalDisconnect)
      ensures store.coins == old(store.coins) && store.status == old(store.status)
      ensures store.error == old(store.error)
      ensures store.websocketStatus ==
        if old(reconnectAttempts) < MaxReconnectAttempts then old(store.websocketStatus) else Disconnected
    {
      if reconnectAttempts < MaxReconnectAttempts {
        reconnectAttempts := reconnectAttempts + 1;
        var delay := BackoffDelay(reconnectAttempts);
        timers := timers + [Backoff(delay)];
      } else {
        store.SetWebsocketStatus(Disconnected);
        timers := timers + [LongRetry];
      }
    }

    /**
     * `connect`: a no-op while a socket exists; otherwise open one. When creating the
     * socket throws (`createFails`), report `disconnected` and go through `handleReconnect`.
     */
    method Connect(createFails: bool)
      requires Valid()
      modifies this, store
      ensures Valid()
      ensures isIntentionalDisconnect == old(isIntentionalDisconnect)
      ensures store.coins == old(store.coins) && store.status == old(store.status)
      ensures store.error == old(store.error)
      ensures old(hasSocket) ==>
        hasSocket && reconnectAttempts == old(reconnectAttempts) && timers == old(timers)
        && store.websocketStatus == old(store.websocketStatus)
      ensures !old(hasSocket) && !createFails ==>
        hasSocket && reconnectAttempts == old(reconnectAttempts) && timers == old(timers)
        && store.websocketStatus == old(store.websocketStatus)
      ensures !old(hasSocket) && createFails ==>
        !hasSocket && reconnectAttempts == NextAttempt(old(reconnectAttempts))
        && timers == old(timers) + [RetryTimer(old(reconnectAttempts))]
        && store.websocketStatus == Disconnected
    {
      if hasSocket {
        return;
      }
      if createFails {
        store.SetWebsocketStatus(Disconnected);
        HandleReconnect();
      } else {
        hasSocket := true;
      }
    }

    /** `onopen`: report `connected` and reset the counter. */
    method OnOpen()
      requires Valid()
      modifies this, store
      ensures Valid()
      ensures store.websocketStatus == Connected && reconnectAttempts == 0
      ensures hasSocket == old(hasSocket) && timers == old(timers)
      ensures isIntentionalDisconnect == old(isIntentionalDisconnect)
      ensures store.coins == old(store.coins) && store.status == old(store.status)
      ensures store.error == old(store.error)
    {
      store.SetWebsocketStatus(Connected);
      reconnectAttempts := 0;
    }

    /**
     * `onclose`: report `disconnected`, drop the socket, and go through
     * `handleReconnect` unless the host disconnected on purpose.
     */
    method OnClose()
      requires Valid()
      modifies this, store
      ensures Valid()
      ensures !hasSocket && isIntentionalDisconnect == old(isIntentionalDisconnect)
      ensures store.websocketStatus == Disconnected
      ensures store.coins == old(store.coins) && store.status == old(store.status)
      ensures store.error == old(store.error)
      ensures isIntentionalDisconnect ==>
        reconnectAttempts == old(reconnectAttempts) && timers == old(timers)
      ensures !isIntentionalDisconnect ==>
        reconnectAttempts == NextAttempt(old(reconnectAttempts))
        && timers == old(timers) + [RetryTimer(old(reconnectAttempts))]
    {
      store.SetWebsocketStatus(Disconnected);
      hasSocket := false;
      if !isIntentionalDisconnect {
        HandleReconnect();
      }
    }

    /** `onerror`: report `disconnected`; nothing is scheduled and the socket is kept. */
    method OnError()
      requires Valid()
      modifies store
      ensures store.websocketStatus == Disconnected
      ensures store.coins == old(store.coins) && store.status == old(store.status)
      ensures store.error == old(store.error)
    {
      store.SetWebsocketStatus(Disconnected);
    }

    /**
     * `onmessage`: a frame that failed to parse (`None`) forwards nothing; otherwise
     * `updatePrice` is dispatched for each entry with a positive numeric price, in order.
     */
    method OnMessage(frame: Option<seq<FrameEntry>>)
      modifies store
      ensures store.coins ==
        if frame.None? then old(store.coins) else ApplyTicks(old(store.coins), ForwardedTicks(frame.value))
      ensures store.status == old(store.status) && store.error == old(store.error)
      ensures store.websocketStatus == old(store.websocketStatus)
    {
      if frame.None? {
        return;
      }
      var entries := frame.value;
      ghost var start := store.coins;
      var i := 0;
      while i < |entries|
        invariant 0 <= i <= |entries|
        invariant store.coins == ApplyTicks(start, ForwardedTicks(entries[..i]))
        invariant store.status == old(store.status) && store.error == old(store.error)
        invariant store.websocketStatus == old(store.websocketStatus)
      {
        var e := entries[i];
        ForwardedOneMore(start, entries, i);
        if e.parsed.Some? && e.parsed.value > 0.0 {
          store.UpdatePrice(e.coinId, e.parsed.value);
        }
        i := i + 1;
      }
      assert entries[..|entries|] == entries;
    }

    /** `disconnect`: set the intentional flag and drop the socket if there is one; pending timers stay. */
    method Disconnect()
      requires Valid()
      modifies this, store
      ensures Valid()
      ensures isIntentionalDisconnect && !hasSocket
      ensures reconnectAttempts == old(reconnectAttempts) && timers == old(timers)
      ensures store.coins == old(store.coins) && store.status == old(store.status)
      ensures store.error == old(store.error)
      ensures store.websocketStatus ==
        if old(hasSocket) then Disconnected else old(store.websocketStatus)
    {
      isIntentionalDisconnect := true;
      if hasSocket {
        hasSocket := false;
        store.SetWebsocketStatus(Disconnected);
      }
    }

    /**
     * The `setTimeout` callback at position `i` runs: the fallback first resets the
     * counter, then `connect` runs, whichever timer it was.
     */
    method FireTimer(i: nat, createFails: bool)
      requires Valid() && i < |timers|
      modifies this, store
      ensures Valid()
      ensures isIntentionalDisconnect == old(isIntentionalDisconnect)
      ensures store.coins == old(store.coins) && store.status == old(store.status)
      ensures store.error == old(store.error)
      ensures var rest := old(timers[..i] + timers[i + 1..]);
        var attempts := if old(timers[i]).LongRetry? then 0 else old(reconnectAttempts);
        if old(hasSocket) || !createFails then
          hasSocket && timers == rest && reconnectAttempts == attempts
          && store.websocketStatus == old(store.websocketStatus)
        else
          !hasSocket && timers == rest + [RetryTimer(attempts)]
          && reconnectAttempts == NextAttempt(attempts) && store.websocketStatus == Disconnected
    {
      var t := timers[i];
      timers := timers[..i] + timers[i + 1..];
      assert forall k :: 0 <= k < |timers| ==> timers[k] in old(timers);
      if t.LongRetry? {
        reconnectAttempts := 0;
      }
      Connect(createFails);
    }
  }

  /**
   * The reconnect schedule seen through the service itself: a socket that opens and
   * closes, and then twice fails to be re-created, schedules 3 s, 6 s and 9 s retries.
   */
  method ReconnectScenario() returns (scheduled: seq<Timer>)
    ensures scheduled == [Backoff(3000), Backoff(6000), Backoff(9000)]
  {
    var store := new CryptoStore();
    var feed := new PriceFeed(store);
    feed.Connect(false);
    feed.OnOpen();
    feed.OnClose();
    scheduled := feed.timers;
    feed.FireTimer(0, true);
    scheduled := scheduled + feed.timers;
    feed.FireTimer(0, true);
    scheduled := scheduled + feed.timers;
  }

  /**
   * The fallback does not repeat every 60 s: ten failed retries end in the fallback,
   * and when the fallback's own connect fails the counter, reset to 0, schedules
   * 3000 ms again.
   */
  method FallbackFailureScenario() returns (atCeiling: seq<Timer>, afterFallback: seq<Timer>)
    ensures atCeiling == [LongRetry] && afterFallback == [Backoff(3000)]
  {
    var store := new CryptoStore();
    var feed := new PriceFeed(store);
    feed.Connect(true);
    var i := 1;
    while i < MaxReconnectAttempts
      invariant 1 <= i <= MaxReconnectAttempts
      invariant feed.Valid() && feed.store == store && !feed.hasSocket
      invariant feed.reconnectAttempts == i && feed.timers == [RetryTimer(i - 1)]
      modifies feed, store
    {
      feed.FireTimer(0, true);
      i := i + 1;
    }
    feed.FireTimer(0, true);
    atCeiling := feed.timers;
    feed.FireTimer(0, true);
    afterFallback := feed.timers;
  }

  /**
   * `connect` never clears the intentional flag: after a disconnect, a socket opened
   * by a later `connect` that then closes schedules no reconnect at all.
   */
  method ConnectAfterDisconnectScenario() returns (scheduled: seq<Timer>, intentional: bool)
    ensures scheduled == [] && intentional
  {
    var store := new CryptoStore();
    var feed := new PriceFeed(store);
    feed.Connect(false);
    feed.Disconnect();
    feed.Connect(false);
    feed.OnOpen();
    feed.OnClose();
    scheduled, intentional := feed.timers, feed.isIntentionalDisconnect;
  }

  /**
   * The intentional flag is not read when creating a socket fails: after a
   * disconnect, a `connect` whose socket cannot be created still schedules a retry.
   */
  method FailedConnectAfterDisconnectScenario() returns (scheduled: seq<Timer>, intentional: bool)
    ensures scheduled == [Backoff(3000)] && intentional
  {
    var store := new CryptoStore();
    var feed := new PriceFeed(store);
    feed.Disconnect();
    feed.Connect(true);
    scheduled, intentional := feed.timers, feed.isIntentionalDisconnect;
  }

  /**
   * `disconnect` cancels no pending timer: a retry scheduled before the disconnect
   * still fires afterwards and opens a socket.
   */
  method PendingRetryAfterDisconnectScenario() returns (reopened: bool, intentional: bool)
    ensures reopened && intentional
  {
    var store := new CryptoStore();
    var feed := new PriceFeed(store);
    feed.Connect(false);
    feed.OnOpen();
    feed.OnClose();
    feed.Disconnect();
    feed.FireTimer(0, false);
    reopened, intentional := feed.hasSocket, feed.isIntentionalDisconnect;
  }
}
