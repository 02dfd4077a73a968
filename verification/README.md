# CryptoWeather Nexus — a Dafny model of the live-price and alert logic

The dashboard shows crypto prices, weather and news. Most of it is rendering. The
state logic behind it is small, and this project models that logic and proves
properties of it:

- **Price feed** (`websocket.dfy`, module `WebSocket`). The connection manager behind
  the live price stream. It keeps at most one socket reference and a reconnect
  counter bounded by 10. Backoff is linear and capped (`3000 × min(attempts, 5)` ms).
  After the tenth attempt there is a 60 s fallback retry that resets the counter. An
  intentional disconnect suppresses the reconnect after a close. It does not stop a
  failed socket creation from scheduling a retry, and it cancels no timer that is
  already pending. Each inbound frame forwards `updatePrice` only for entries with a
  positive numeric price.
- **Crypto cache** (`crypto_slice.dfy`, module `CryptoSlice`). The per-coin snapshot
  cache has a five-minute freshness test. On HTTP 429 the thunk falls back to the
  cached data. `updatePrice` is a partial update that touches only the price. The
  reducers are methods of `CryptoStore`.
- **Threshold alerts** (`crypto_page.dfy`, module `CryptoPage`). The crypto page
  validates alerts when they are created. Its effect tests every untriggered alert
  against the selected coin's price, with inclusive boundaries. Each alert fires at
  most once through its monotonic `triggered` flag. Notifications are kept newest
  first, and alerts and notifications are removed by id. The module also models the
  unit choice of `formatVolume`.
- **Percent-change toasts** (`price_alerts.dfy`, module `PriceAlerts`). A map of
  previously seen prices per coin. A move of at least 0.5 % raises one notice, and
  the price is remembered whether or not a notice was raised.
- **Weather, news and preferences slices** (`weather_slice.dfy`, `news_slice.dfy`,
  `preferences_slice.dfy`). These cover loading/data/error transitions (stale data is
  kept when a fetch fails), the weather alert list, and toggling favourites with
  `indexOf` followed by `push` or `splice`.

`wrappers.dfy` holds `Option`, which models JavaScript's `null`/`undefined`.

How the model is built:
- Code that mutates fields is a class whose methods reassign those fields: the
  service object, the reducers, the `previousPrices` ref and the page state. The
  properties that relate several steps are lemmas about the specification functions
  those methods are proved against.
- Prices are `real`. Timestamps and ids are integer milliseconds, supplied as
  parameters.
- A `setTimeout` is recorded as a pending `Timer`, and `FireTimer` runs one.
- `JSON.parse` and `parseFloat` become `Option` inputs: `None` for a parse failure
  or NaN.
- The network becomes a `Response` input: a body, or an error with an optional HTTP
  status.

Notable behaviours of the code, which the model keeps:
- `connect()` does not clear the intentional-disconnect flag, so after `disconnect()`
  no later close reconnects (`WebSocket.ConnectAfterDisconnectScenario`).
- The flag is read only on close. After `disconnect()`, a `connect()` whose socket
  cannot be created still schedules a retry
  (`WebSocket.FailedConnectAfterDisconnectScenario`). A retry that was pending at the
  disconnect still fires and opens a socket
  (`WebSocket.PendingRetryAfterDisconnectScenario`).
- The socket reference is shared. After a disconnect and a new connect, the old
  socket's late `onclose` clears the reference to the new socket, which stays open.
- `fetchCryptoData` reads the cache before the request, and `fulfilled` rewrites the
  whole entry. A live tick that arrives while a request is in flight is therefore
  lost, and on a 429 the price reverts to the snapshot read before the request
  (`CryptoSlice.InFlightTickScenario`).
- The backoff is linear with a cap, not exponential.
- There is no fixed 60 s cadence after the attempts run out. The fallback resets the
  counter before connecting, so when that connect fails the schedule restarts at
  3000 ms (`WebSocket.FallbackFailureScenario`, `WebSocket.RetriesRepeat`).
- A 429 fallback resolves as `fulfilled` and attaches no error message.
- Alerts are checked against the selected coin's price whatever coin they were set
  on.
- There is no per-key loading state in the crypto cache.

## Model

| member | source | states |
|---|---|---|
| `CryptoSlice.IsFresh` | src/redux/slices/cryptoSlice.js:13-16 | Only a cached, stamped entry can be fresh. An entry stamped at t is fresh strictly before t + 300000 ms and stale from that instant on. |
| `CryptoSlice.FetchCoin` | src/redux/slices/cryptoSlice.js:6-43 | A fresh entry (timestamp younger than 300000 ms, strict) is served with no timestamp. On a miss, a body is stamped with its arrival time. An error falls back to the cache, keeping the old data and timestamp, exactly on a 429 with cached data. Otherwise the thunk rejects with the error's message. |
| `CryptoSlice.CacheHitIsForgotten` | src/redux/slices/cryptoSlice.js:13-18 | Once `fulfilled` stores a cache hit, the entry is not fresh at any later time, so the next fetch always goes to the network. |
| `CryptoSlice.PriceUpdated` | src/redux/slices/cryptoSlice.js:56-61 | `updatePrice` never adds or removes a coin. |
| `CryptoSlice.PriceUpdateIsPartial` | src/redux/slices/cryptoSlice.js:56-61 | The named coin gets the new price and keeps every other field and its timestamp. Every other coin is unchanged. |
| `CryptoSlice.ApplyTicks` | src/services/websocket.js:45-50 | A run of `updatePrice` dispatches keeps the set of cached coins. |
| `CryptoSlice.TicksOnlyTouchPrices` | src/redux/slices/cryptoSlice.js:56-61 | Across any run of ticks, a cached coin changes only in its price. |
| `CryptoSlice.UntickedCoinUnchanged` | src/redux/slices/cryptoSlice.js:56-61 | A coin that no tick names keeps its entry exactly. |
| `CryptoSlice.LastTickWins` | src/services/websocket.js:45-50 | After a run of ticks, a cached coin's price is the price of its last tick. |
| `CryptoSlice.CryptoStore.constructor` | src/redux/slices/cryptoSlice.js:45-50 | The initial state has no coins, status idle, no error and the feed disconnected. |
| `CryptoSlice.CryptoStore.UpdatePrice` | src/redux/slices/cryptoSlice.js:56-61 | Only `coins` changes, as `PriceUpdated` describes. |
| `CryptoSlice.CryptoStore.SetWebsocketStatus` | src/redux/slices/cryptoSlice.js:62-64 | Only `websocketStatus` changes. |
| `CryptoSlice.CryptoStore.FetchPending` | src/redux/slices/cryptoSlice.js:68-70 | Only the global status changes, to loading. |
| `CryptoSlice.CryptoStore.FetchFulfilled` | src/redux/slices/cryptoSlice.js:71-77 | Sets status succeeded and replaces only that coin's entry. The error is kept. |
| `CryptoSlice.CryptoStore.FetchRejected` | src/redux/slices/cryptoSlice.js:78-81 | Sets status failed and records the message. `coins` is untouched. |
| `CryptoSlice.CryptoStore.FetchCryptoData` | src/redux/slices/cryptoSlice.js:66-81 | Runs pending, then the thunk decision against the state, then fulfilled or rejected. |
| `CryptoSlice.InFlightTickScenario` | src/redux/slices/cryptoSlice.js:9-76 | A tick dispatched between pending and a 429 fallback is overwritten: the price goes back to the pre-request snapshot. |
| `WebSocket.BackoffDelay` | src/services/websocket.js:74 | For attempts 1 to 10, the delay is a multiple of 3000 in [3000, 15000]. It is 3000 × attempts up to 5, and 15000 from 5 on. |
| `WebSocket.NextAttempt` | src/services/websocket.js:72-73 | The counter goes up by one, and stays put only at or above the ceiling. From a legal counter it lands in [1, 10]. |
| `WebSocket.CounterAfterFire` | src/services/websocket.js:72-87 | After a scheduled timer fires, the counter is one higher, except after the fallback, whose callback resets it to 0. The counter runs round 0…10 modulo 11. |
| `WebSocket.CounterAfter` | src/services/websocket.js:72-87 | After any number of failures in a row, the counter stays within [0, 10]. |
| `WebSocket.Retries` | src/services/websocket.js:72-88 | n failures in a row, each timer firing and its connect failing, schedule n timers. The last is the one `handleReconnect` picks from the counter reached after the n − 1 before it. |
| `WebSocket.RetryTimer` | src/services/websocket.js:71-89 | The fallback is scheduled exactly when the counter is at 10. Otherwise the backoff for the incremented counter is scheduled. |
| `WebSocket.BackoffSchedule` | src/services/websocket.js:71-89 | From 0, eleven failures in a row schedule 3000, 6000, 9000, 12000, then 15000 six times, then the 60 s fallback. |
| `WebSocket.RetriesAfterFallback` | src/services/websocket.js:80-88 | When the fallback's connect fails too, the counter starts again from 0 and the schedule restarts at 3000 ms. |
| `WebSocket.RetriesSplit` | src/services/websocket.js:72-88 | A run of failures splits at any point, and the rest goes on from the counter reached there. |
| `WebSocket.RetriesRepeat` | src/services/websocket.js:72-88 | Eleven failures from 0 return the counter to 0, so the schedule of ten backoffs and one fallback repeats indefinitely. |
| `WebSocket.RetriesWellFormed` | src/services/websocket.js:72-79 | From any legal counter, every scheduled timer is the fallback or a bounded multiple of 3000. |
| `WebSocket.ForwardedTicks` | src/services/websocket.js:42-54 | A frame yields at most one tick per entry, and every tick has a price above 0. |
| `WebSocket.ForwardedExactly` | src/services/websocket.js:45-49 | A tick is forwarded iff the frame holds that coin with that parsed price and the price is above 0. |
| `WebSocket.PriceFeed.constructor` | src/services/websocket.js:6-12 | Starts with no socket, counter 0, the flag clear and nothing scheduled. |
| `WebSocket.PriceFeed.HandleReconnect` | src/services/websocket.js:71-89 | Below 10, increments the counter and schedules its backoff. At 10, reports disconnected and schedules the fallback. The counter stays within [0, 10]. |
| `WebSocket.PriceFeed.Connect` | src/services/websocket.js:14-60 | A no-op while a socket exists. Otherwise opens one. If creating it throws, reports disconnected and reconnects. It never touches the flag. |
| `WebSocket.PriceFeed.OnOpen` | src/services/websocket.js:21-25 | Reports connected and resets the counter to 0. |
| `WebSocket.PriceFeed.OnClose` | src/services/websocket.js:27-35 | Reports disconnected and drops the socket. It reconnects iff the flag is clear. |
| `WebSocket.PriceFeed.OnError` | src/services/websocket.js:37-40 | Reports disconnected. It schedules nothing and keeps the socket. |
| `WebSocket.PriceFeed.OnMessage` | src/services/websocket.js:42-54 | An unparsable frame changes nothing. Otherwise the coins become the old coins updated by exactly the forwarded ticks, in order. |
| `WebSocket.PriceFeed.Disconnect` | src/services/websocket.js:62-69 | Sets the flag, drops any socket, and reports disconnected only if there was one. |
| `WebSocket.PriceFeed.FireTimer` | src/services/websocket.js:77-87 | The timer leaves the queue. The fallback resets the counter. Then `connect` runs. |
| `WebSocket.ReconnectScenario` | src/services/websocket.js:71-79 | Open, close, then two failed re-creations schedule 3000, 6000 and 9000 ms. |
| `WebSocket.FallbackFailureScenario` | src/services/websocket.js:80-87 | Through the service, ten failed retries end in the fallback. When the fallback's connect fails, the next timer is 3000 ms. |
| `WebSocket.ConnectAfterDisconnectScenario` | src/services/websocket.js:62-63 | After a disconnect, a later connect and close schedule nothing. The flag stays set. |
| `WebSocket.FailedConnectAfterDisconnectScenario` | src/services/websocket.js:55-58 | After a disconnect, a connect whose socket cannot be created still schedules a 3000 ms retry. |
| `WebSocket.PendingRetryAfterDisconnectScenario` | src/services/websocket.js:62-79 | A retry pending at the disconnect still fires and opens a socket, with the flag set. |
| `CryptoPage.Crossed` | src/app/crypto/page.js:266-268 | Both boundaries are inclusive: the threshold itself always crosses. Away from it, an above alert crosses only above and a below alert only below. |
| `CryptoPage.Fires` | src/app/crypto/page.js:270 | A triggered alert never fires. An untriggered one fires at its own threshold. |
| `CryptoPage.MarkFired` | src/app/crypto/page.js:265-281 | The effect's marking neither adds nor drops an alert. |
| `CryptoPage.MarkTriggered` | src/app/crypto/page.js:279-281 | Exactly the alerts with the id become triggered. Their other fields and all other alerts are unchanged, and no alert is untriggered. |
| `CryptoPage.MarkFiredSpec` | src/app/crypto/page.js:265-283 | After the effect, an alert is triggered iff it already was or an alert with its id fired. Nothing else changes. |
| `CryptoPage.TriggeredStaysTriggered` | src/app/crypto/page.js:270 | `triggered` is never reset. |
| `CryptoPage.NoRefire` | src/app/crypto/page.js:266-281 | After the effect, no alert fires again at that price. |
| `CryptoPage.NewNotifications` | src/app/crypto/page.js:271-276 | At most one notification per alert, each carrying the coin's name and the current price. |
| `CryptoPage.NotificationsOnlyWhenFired` | src/app/crypto/page.js:265-283 | The effect adds notifications iff some untriggered alert's inclusive threshold is crossed. |
| `CryptoPage.SecondCheckIsSilent` | src/app/crypto/page.js:262-285 | A second run of the effect at the same price adds no notification. |
| `CryptoPage.WithoutAlert` | src/app/crypto/page.js:304-306 | Keeps exactly the alerts whose id differs. An absent id is a no-op. |
| `CryptoPage.WithoutAlertIsFilter` | src/app/crypto/page.js:304-306 | Removal distributes over concatenation. With the one-alert case, this makes it a filter: the kept alerts stay in order, with their multiplicity. |
| `CryptoPage.WithoutNotification` | src/app/crypto/page.js:308-310 | Keeps exactly the notifications whose id differs. An absent id is a no-op. |
| `CryptoPage.WithoutNotificationIsFilter` | src/app/crypto/page.js:308-310 | Dismissal distributes over concatenation, so the kept notifications stay newest first, with their multiplicity. |
| `CryptoPage.ScaleVolume` | src/app/crypto/page.js:92-100 | The unit is B iff the volume is at least 1e9, M iff it is in [1e6, 1e9), and none below 1e6. The printed number times the unit gives back the volume. |
| `CryptoPage.AlertPanel.constructor` | src/app/crypto/page.js:30-35 | Starts on bitcoin with no alerts and no notifications. |
| `CryptoPage.AlertPanel.SelectCoin` | src/app/crypto/page.js:319 | Changes only the selected coin. |
| `CryptoPage.AlertPanel.AddAlert` | src/app/crypto/page.js:287-302 | Appends an untriggered alert at the end iff the parsed price is a number above 0. Otherwise nothing changes. |
| `CryptoPage.AlertPanel.RemoveAlert` | src/app/crypto/page.js:304-306 | Only `alerts` changes, as `WithoutAlert` describes. |
| `CryptoPage.AlertPanel.DismissNotification` | src/app/crypto/page.js:308-310 | Only `notifications` changes, as `WithoutNotification` describes. |
| `CryptoPage.AlertPanel.CheckAlerts` | src/app/crypto/page.js:259-285 | Without data for the selected coin, nothing changes. Otherwise the alerts become `MarkFired` of the snapshot, and the new notifications are prepended newest first. |
| `PriceAlerts.ChangePercent` | src/components/PriceAlerts.js:25 | The change is positive iff the price rose. Its magnitude times the previous price is 100 × the move. |
| `PriceAlerts.HalfPercentThreshold` | src/components/PriceAlerts.js:25-28 | For a positive previous price, a change of at least 0.5 % is a move of at least prev / 200. |
| `PriceAlerts.ChangeNotice` | src/components/PriceAlerts.js:22-44 | A notice is raised iff the previous price exists, is above 0, and 200·\|cur − prev\| ≥ prev. The direction is increased iff the price rose. The percent is the relative move. |
| `PriceAlerts.Remembered` | src/components/PriceAlerts.js:18-47 | A run never forgets a coin it remembered. |
| `PriceAlerts.RememberedKeys` | src/components/PriceAlerts.js:18-47 | The remembered coins after a run are the old ones plus every coin of the run that had a price. |
| `PriceAlerts.Notices` | src/components/PriceAlerts.js:18-48 | A run raises no more notices than it has coins. |
| `PriceAlerts.RememberedUntouched` | src/components/PriceAlerts.js:19 | A coin with no priced entry keeps its remembered price. |
| `PriceAlerts.RememberedIsLatest` | src/components/PriceAlerts.js:46-47 | After a run, a coin's remembered price is its last non-zero price, whether or not a notice was raised. |
| `PriceAlerts.NoticesFromCoins` | src/components/PriceAlerts.js:18-48 | Every notice is about a coin of the run that had a price. There are no more notices than coins. |
| `PriceAlerts.NoticeRaisedIff` | src/components/PriceAlerts.js:18-48 | With distinct ids, a priced coin raises a notice iff its comparison with the price remembered before the run gives one, and it is that notice. |
| `PriceAlerts.AtMostOneNoticePerCoin` | src/components/PriceAlerts.js:18-48 | With distinct coin ids, a run raises at most one notice per coin. |
| `PriceAlerts.FirstRunIsSilent` | src/components/PriceAlerts.js:10-14 | From the initial map, a run with distinct ids raises no notice. |
| `PriceAlerts.PriceChangeNotifier.constructor` | src/components/PriceAlerts.js:10-14 | Starts with bitcoin, ethereum and cardano at 0. |
| `PriceAlerts.PriceChangeNotifier.OnCoinsChanged` | src/components/PriceAlerts.js:16-49 | Returns `Notices` of the old map and stores `Remembered`. |
| `WeatherSlice.WeatherStore.constructor` | src/redux/slices/weatherSlice.js:17-24 | Exactly New York, London and Tokyo, each with no data, not loading and no error. No alerts. |
| `WeatherSlice.WeatherStore.AddWeatherAlert` | src/redux/slices/weatherSlice.js:30-32 | Appends at the end. The cities are untouched. |
| `WeatherSlice.WeatherStore.ClearWeatherAlerts` | src/redux/slices/weatherSlice.js:33-35 | Empties the alerts. The cities are untouched. |
| `WeatherSlice.WeatherStore.FetchPending` | src/redux/slices/weatherSlice.js:39-45 | For a tracked city, sets loading and clears the error while keeping the data. An unknown city is a no-op. The key set is invariant. |
| `WeatherSlice.WeatherStore.FetchFulfilled` | src/redux/slices/weatherSlice.js:46-53 | For a tracked city, stores the data, stops loading and clears the error. An unknown city is a no-op. |
| `WeatherSlice.WeatherStore.FetchRejected` | src/redux/slices/weatherSlice.js:54-60 | For a tracked city, stops loading and records the error while keeping the stale data. An unknown city is a no-op. |
| `NewsSlice.NewsStore.constructor` | src/redux/slices/newsSlice.js:16-21 | No articles, not loading, no error, no timestamp. |
| `NewsSlice.NewsStore.ClearNews` | src/redux/slices/newsSlice.js:27-30 | Empties the articles and the timestamp. Loading and error are untouched. |
| `NewsSlice.NewsStore.FetchPending` | src/redux/slices/newsSlice.js:34-37 | Sets loading and clears the error. Articles and timestamp are kept. |
| `NewsSlice.NewsStore.FetchFulfilled` | src/redux/slices/newsSlice.js:38-43 | Stores the payload, stamps it with now, stops loading and clears the error. |
| `NewsSlice.NewsStore.FetchRejected` | src/redux/slices/newsSlice.js:44-47 | Stops loading and records the error. Articles and timestamp are kept. |
| `PreferencesSlice.IndexOf` | src/redux/slices/preferencesSlice.js:16 | Returns -1 iff the value is absent. Otherwise returns the position of its first occurrence. |
| `PreferencesSlice.Toggled` | src/redux/slices/preferencesSlice.js:14-22 | An absent value is appended at the end. For a present one, its first occurrence is spliced out and the other values keep their order. |
| `PreferencesSlice.ToggleFlipsMembership` | src/redux/slices/preferencesSlice.js:16-21 | On a list without duplicates, a toggle flips the value's membership. Other values keep theirs, and the list stays without duplicates. |
| `PreferencesSlice.ToggleTwiceRestores` | src/redux/slices/preferencesSlice.js:18-20 | Toggling an absent value twice gives back the original list. |
| `PreferencesSlice.Preferences.constructor` | src/redux/slices/preferencesSlice.js:3-8 | Empty favourite lists, theme light, refresh interval 60. |
| `PreferencesSlice.Preferences.ToggleFavoriteCity` | src/redux/slices/preferencesSlice.js:14-22 | Only `favoriteCities` changes, to `Toggled`. |
| `PreferencesSlice.Preferences.ToggleFavoriteCoin` | src/redux/slices/preferencesSlice.js:23-31 | Only `favoriteCoins` changes, to `Toggled`. |
| `PreferencesSlice.Preferences.SetTheme` | src/redux/slices/preferencesSlice.js:32-34 | Only `theme` changes. |
| `PreferencesSlice.Preferences.SetRefreshInterval` | src/redux/slices/preferencesSlice.js:35-37 | Only `refreshInterval` changes. |

## Left out

- Rendering is not modelled: JSX, charts, styling, toasts' visual options and `formatDate`/`formatPrice`.
- String formatting is not modelled: notification message text, `toFixed`, `toLocaleString`, `Intl.NumberFormat` and `toUpperCase`. `ScaleVolume` returns the number and unit `formatVolume` would print. Notifications carry the message's ingredients instead of the text.
- Floating point is not modelled: prices are exact reals, so rounding and NaN propagation are absent (NaN only appears as a failed `parseFloat`).
- Network I/O (`axios.get`, `fetch`, `new WebSocket`) is an input. The historical-chart fetch in the crypto page and the weather and news thunks' request bodies are not part of this model.
- Real scheduling is not modelled: `setTimeout` callbacks are pending `Timer` values and run only when `FireTimer` is called. `setInterval` polling in `src/app/page.js` is not part of this model.
- Socket events are methods callable at any time, because the handlers do not check which socket raised them. The event order a real socket guarantees is not modelled.
- The Redux store, React effects and hooks are not modelled. Reducers are methods, thunk phases are explicit calls, and an effect run is one method call.
- `CryptoSlice.CryptoStore.FetchCryptoData` runs pending, the decision and the settle phase as one step. A dispatch that lands while the request is in flight is expressed by calling the phase methods in turn, as `CryptoSlice.InFlightTickScenario` does.
- In `CheckAlerts`, the queued `setAlerts`/`setNotifications` updates are applied to the state the effect saw. Updates queued by other handlers in the meantime are not modelled.
- `WebSocket.ForwardedTicks`: its contract does not state the order of the ticks. Order is kept by its definition and used by `OnMessage` and `CryptoSlice.LastTickWins`.
- `CryptoPage.NewNotifications`: its own contract does not pair each notification with its alert. `NotificationsOnlyWhenFired` and `SecondCheckIsSilent` state what the effect promises.
- `CryptoPage.AlertPanel.AddAlert`: `createdAt` is the same clock reading as the id, not a formatted date string.
- `WeatherSlice.WeatherStore.AddWeatherAlert`: no caller fixes the payload's shape, so `WeatherAlert` is a stand-in record.
- Cached coin entries always carry data (every `fulfilled` payload has a body), so `coins[id]?.data` reduces to `id` being a key.
