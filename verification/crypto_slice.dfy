/**
 * The crypto slice of the dashboard's store: one cached market-data snapshot per
 * coin, the status of the last REST fetch, and the status of the live price feed.
 *
 * The `fetchCryptoData` thunk's decision (serve the cache, use the response, fall
 * back to the cache on HTTP 429, or reject) is a pure function of the cached entry,
 * the clock and the network outcome. The reducers write into the store in place and
 * are the methods of `CryptoStore`.
 */
module CryptoSlice {
  import opened Wrappers

  /** A cached snapshot counts as fresh for five minutes, in milliseconds. */
  const CacheDuration: int := 5 * 60 * 1000

  /** The fields of a market-data response the dashboard reads. */
  datatype CoinData = CoinData(
    name: string,
    priceUsd: real,        // market_data.current_price.usd
    marketCapUsd: real,    // market_data.market_cap.usd
    volumeUsd: real,       // market_data.total_volume.usd
    change24h: real)       // market_data.price_change_percentage_24h

  /** One entry of `coins`: the data and, when known, when it was fetched (ms). */
  datatype CoinEntry = CoinEntry(data: CoinData, lastUpdated: Option<int>)

  datatype FetchStatus = Idle | Loading | Succeeded | Failed

  datatype WsStatus = Connected | Disconnected

  /** What the thunk resolves with; `fulfilled` stores it under `id`. */
  datatype CoinPayload = CoinPayload(id: string, data: CoinData, lastUpdated: Option<int>)

  /** The outcome of the REST request: a body, or an error with an optional HTTP status. */
  datatype Response = Ok(body: CoinData) | HttpError(status: Option<int>, message: string)

  /** How the thunk settles. */
  datatype ThunkOutcome = Fulfilled(payload: CoinPayload) | Rejected(message: string)

  /** A live price for one coin, the payload of `updatePrice`. */
  datatype PriceTick = PriceTick(coinId: string, price: real)

  /** The thunk skips the network when the entry has a timestamp younger than five minutes. */
  predicate IsFresh(coins: map<string, CoinEntry>, coinId: string, now: int): (current: bool)
    ensures current ==> coinId in coins && coins[coinId].lastUpdated.Some?
    // an entry stamped at t is fresh before t + 300000 and stale from that instant on
    ensures coinId in coins && coins[coinId].lastUpdated.Some? ==>
      (current <==> now < coins[coinId].lastUpdated.value + 300000)
  {
    coinId in coins && coins[coinId].lastUpdated.Some?
    && now - coins[coinId].lastUpdated.value < CacheDuration
  }

  /**
   * The settled result of `fetchCryptoData(coinId)` read against `coins` at time `now`.
   * `response` is what the request would answer and `respondedAt` the clock when it
   * answered; neither is consulted on a cache hit.
   */
  function FetchCoin(coins: map<string, CoinEntry>, coinId: string, now: int,
                     response: Response, respondedAt: int): (r: ThunkOutcome)
    ensures r.Fulfilled? ==> r.payload.id == coinId
    // a cache hit serves the cached data and carries no timestamp
    ensures IsFresh(coins, coinId, now) ==>
      r.Fulfilled? && r.payload.data == coins[coinId].data && r.payload.lastUpdated.None?
    // a miss with a body stamps the body with the time it arrived
    ensures !IsFresh(coins, coinId, now) && response.Ok? ==>
      r.Fulfilled? && r.payload.data == response.body && r.payload.lastUpdated == Some(respondedAt)
    // a miss with an error is served from the cache exactly on a 429 with cached data
    ensures !IsFresh(coins, coinId, now) && response.HttpError? ==>
      (r.Fulfilled? <==> response.status == Some(429) && coinId in coins)
    ensures !IsFresh(coins, coinId, now) && response.HttpError? && r.Fulfilled? ==>
      r.payload.data == coins[coinId].data && r.payload.lastUpdated == coins[coinId].lastUpdated
    ensures r.Rejected? ==> response.HttpError? && r.message == response.message
  {
    if IsFresh(coins, coinId, now) then
      Fulfilled(CoinPayload(coinId, coins[coinId].data, None))
    else
      match response
      case Ok(body) => Fulfilled(CoinPayload(coinId, body, Some(respondedAt)))
      case HttpError(status, message) =>
        if status == Some(429) && coinId in coins then
          Fulfilled(CoinPayload(coinId, coins[coinId].data, coins[coinId].lastUpdated))
        else
          Rejected(message)
  }

  /** The entry `fulfilled` writes for a payload. */
  function EntryOf(p: CoinPayload): CoinEntry {
    CoinEntry(p.data, p.lastUpdated)
  }

  /**
   * A cache hit is stored without a timestamp, so whatever the clock says next,
   * the following fetch of that coin goes to the network.
   */
  lemma CacheHitIsForgotten(coins: map<string, CoinEntry>, coinId: string, now: int,
                            response: Response, respondedAt: int, later: int)
    requires IsFresh(coins, coinId, now)
    ensures var stored := coins[coinId := EntryOf(FetchCoin(coins, coinId, now, response, respondedAt).payload)];
      !IsFresh(stored, coinId, later)
  {
  }

  /** Two entries that agree on everything except the live price. */
  predicate SameExceptPrice(a: CoinEntry, b: CoinEntry) {
    a.lastUpdated == b.lastUpdated && a.data.name == b.data.name
    && a.data.marketCapUsd == b.data.marketCapUsd && a.data.volumeUsd == b.data.volumeUsd
    && a.data.change24h == b.data.change24h
  }

  /** `coins` after `updatePrice({coinId, price})`; a coin without data is left alone. */
  function PriceUpdated(coins: map<string, CoinEntry>, coinId: string, price: real)
    : (r: map<string, CoinEntry>)
    ensures r.Keys == coins.Keys
  {
    if coinId in coins then
      var e := coins[coinId];
      coins[coinId := e.(data := e.data.(priceUsd := price))]
    else
      coins
  }

  /**
   * `updatePrice` is a partial update: the named coin gets the new price and keeps
   * every other field; every other coin keeps its entry.
   */
  lemma PriceUpdateIsPartial(coins: map<string, CoinEntry>, coinId: string, price: real, c: string)
    requires c in coins
    ensures c != coinId ==> PriceUpdated(coins, coinId, price)[c] == coins[c]
    ensures c == coinId ==>
      PriceUpdated(coins, coinId, price)[c].data.priceUsd == price
      && SameExceptPrice(PriceUpdated(coins, coinId, price)[c], coins[c])
  {
  }

  /** `coins` after `updatePrice` for each tick in turn. */
  function ApplyTicks(coins: map<string, CoinEntry>, ticks: seq<PriceTick>)
    : (r: map<string, CoinEntry>)
    ensures r.Keys == coins.Keys
  {
    if ticks == [] then coins
    else
      var last := ticks[|ticks| - 1];
      PriceUpdated(ApplyTicks(coins, ticks[..|ticks| - 1]), last.coinId, last.price)
  }

  /** Ticks never change anything of a cached coin but its price. */
  lemma {:induction false} TicksOnlyTouchPrices(coins: map<string, CoinEntry>, ticks: seq<PriceTick>, c: string)
    requires c in coins
    ensures SameExceptPrice(ApplyTicks(coins, ticks)[c], coins[c])
  {
    if ticks != [] {
      var last := ticks[|ticks| - 1];
      TicksOnlyTouchPrices(coins, ticks[..|ticks| - 1], c);
      PriceUpdateIsPartial(ApplyTicks(coins, ticks[..|ticks| - 1]), last.coinId, last.price, c);
    }
  }

  /** A coin no tick names keeps its entry exactly. */
  lemma {:induction false} UntickedCoinUnchanged(coins: map<string, CoinEntry>, ticks: seq<PriceTick>, c: string)
    requires c in coins
    requires forall k :: 0 <= k < |ticks| ==> ticks[k].coinId != c
    ensures ApplyTicks(coins, ticks)[c] == coins[c]
  {
    if ticks != [] {
      var last := ticks[|ticks| - 1];
      UntickedCoinUnchanged(coins, ticks[..|ticks| - 1], c);
      PriceUpdateIsPartial(ApplyTicks(coins, ticks[..|ticks| - 1]), last.coinId, last.price, c);
    }
  }

  /** Applying one more tick is one more `updatePrice`. */
  lemma ApplyOneMoreTick(coins: map<string, CoinEntry>, ticks: seq<PriceTick>, t: PriceTick)
    ensures ApplyTicks(coins, ticks + [t]) == PriceUpdated(ApplyTicks(coins, ticks), t.coinId, t.price)
  {
    assert (ticks + [t])[..|ticks|] == ticks;
  }

  /**
   * After a run of ticks, a cached coin's price is the price of the last tick for it:
   * a later malformed or missing tick never overwrites a good one.
   */
  lemma {:induction false} LastTickWins(coins: map<string, CoinEntry>, ticks: seq<PriceTick>, k: nat)
    requires k < |ticks| && ticks[k].coinId in coins
    requires forall j :: k < j < |ticks| ==> ticks[j].coinId != ticks[k].coinId
    ensures ApplyTicks(coins, ticks)[ticks[k].coinId].data.priceUsd == ticks[k].price
  {
    var n := |ticks| - 1;
    var c := ticks[k].coinId;
    if k < n {
      LastTickWins(coins, ticks[..n], k);
    }
    PriceUpdateIsPartial(ApplyTicks(coins, ticks[..n]), ticks[n].coinId, ticks[n].price, c);
  }

  /** The store's crypto state; each method is one reducer. */
  class CryptoStore {
    var coins: map<string, CoinEntry>
    var status: FetchStatus
    var error: Option<string>
    var websocketStatus: WsStatus

    constructor()
      ensures coins == map[] && status == Idle && error == None && websocketStatus == Disconnected
    {
      coins := map[];
      status := Idle;
      error := None;
      websocketStatus := Disconnected;
    }

    /** `updatePrice`: overwrite only the live price of a coin that has data. */
    method UpdatePrice(coinId: string, price: real)
      modifies this
      ensures coins == PriceUpdated(old(coins), coinId, price)
      ensures status == old(status) && error == old(error) && websocketStatus == old(websocketStatus)
    {
      coins := PriceUpdated(coins, coinId, price);
    }

    /** `setWebsocketStatus`: overwrite only the feed status. */
    method SetWebsocketStatus(s: WsStatus)
      modifies this
      ensures websocketStatus == s
      ensures coins == old(coins) && status == old(status) && error == old(error)
    {
      websocketStatus := s;
    }

    /** `fetchCryptoData.pending`: only the global status changes. */
    method FetchPending()
      modifies this
      ensures status == Loading
      ensures coins == old(coins) && error == old(error) && websocketStatus == old(websocketStatus)
    {
      status := Loading;
    }

    /** `fetchCryptoData.fulfilled`: replace that coin's entry; the error is left as it was. */
    method FetchFulfilled(p: CoinPayload)
      modifies this
      ensures status == Succeeded
      ensures coins == old(coins)[p.id := EntryOf(p)]
      ensures error == old(error) && websocketStatus == old(websocketStatus)
    {
      status := Succeeded;
      coins := coins[p.id := EntryOf(p)];
    }

    /** `fetchCryptoData.rejected`: record the failure and keep every cached coin. */
    method FetchRejected(message: string)
      modifies this
      ensures status == Failed && error == Some(message)
      ensures coins == old(coins) && websocketStatus == old(websocketStatus)
    {
      status := Failed;
      error := Some(message);
    }

    /**
     * One whole `dispatch(fetchCryptoData(coinId))`: `pending`, the thunk's decision
     * against the state it reads, then `fulfilled` or `rejected`.
     */
    method FetchCryptoData(coinId: string, now: int, response: Response, respondedAt: int)
      modifies this
      ensures var r := FetchCoin(old(coins), coinId, now, response, respondedAt);
        && (r.Fulfilled? ==> status == Succeeded && coins == old(coins)[coinId := EntryOf(r.payload)]
                             && error == old(error))
        && (r.Rejected? ==> status == Failed && coins == old(coins) && error == Some(r.message))
      ensures websocketStatus == old(websocketStatus)
    {
      FetchPending();
      var outcome := FetchCoin(coins, coinId, now, response, respondedAt);
      match outcome
      case Fulfilled(p) => FetchFulfilled(p);
      case Rejected(m) => FetchRejected(m);
    }
  }

  /**
   * The thunk reads the cache before the request and `fulfilled` rewrites the whole
   * entry, so a live tick that lands while a request is in flight is lost: on a 429
   * the entry goes back to the snapshot read before the request.
   */
  method InFlightTickScenario(data: CoinData, stamp: int, now: int, tick: real)
    returns (ticked: real, settled: real)
    requires now >= stamp + CacheDuration && tick != data.priceUsd
    ensures ticked == tick && settled == data.priceUsd && settled != ticked
  {
    var store := new CryptoStore();
    store.FetchFulfilled(CoinPayload("bitcoin", data, Some(stamp)));
    var snapshot := store.coins;
    store.FetchPending();
    store.UpdatePrice("bitcoin", tick);
    ticked := store.coins["bitcoin"].data.priceUsd;
    var outcome := FetchCoin(snapshot, "bitcoin", now, HttpError(Some(429), "Too Many Requests"), now);
    store.FetchFulfilled(outcome.payload);
    settled := store.coins["bitcoin"].data.priceUsd;
  }
}
