# asset-tracker core, modelled in Dafny

This project models the sequential logic inside the browser client of a
market-data platform: the credential cache that keeps an access token and
its expiry in session storage, the price-history request builder, the socket
session that republishes live quotes, and the assets component that filters
symbols for autocomplete, resolves instruments, requests price history,
subscribes to the live channel and shows the latest quote.

Files, one module each:

- `wrappers.dfy` — `Option` and `Result`.
- `decimal.dfy` — `Number.prototype.toString` for integers and `Number(...)` as a partial decode.
- `text.dfy` — ASCII `toLowerCase` and `includes`.
- `models.dfy` — the interfaces of the `models` files as datatypes.
- `auth.dfy` — `AuthService` as a class over a `map<string, string>` store and the token subject's value.
- `price_api.dfy` — `getPriceData` as pure functions from (token, query) to a request or an error.
- `websocket.dfy` — `WebSocketService` as a class: socket reference, token listeners, sent and error logs, and the `messages$` subject.
- `assets.dfy` — `AssetsComponent` as a class over the socket session, plus the pure filter and quote functions.

The clock, the identity exchange, the instrument directory's answers, the
price service's response and the events a socket reports are parameters of
the methods. Every method of a class states, for each field of its own
object and of any object it `modifies`, either its new value or that it is
unchanged.
The pure functions carry the properties as lemmas.

## Behaviour of the code worth knowing

- `connect()` is not idempotent. Each call subscribes one more listener to the token subject (websocket.service.ts:29), and `_tokenSubscription` keeps only the latest. `WebSocketService.listeners` counts them.
- A refresh is not shared between callers. Each `getToken()` that needs one runs its own exchange.
- The displayed quote takes the `last` side of any message that has one, whatever instrument the message is for (assets.component.ts:219-221). `SubscribeTwice` shows this.
- `closeConnection()` keeps the socket reference. A later `sendMessage` still hands the message to the completed socket and logs no error.
- The initial history chain (assets.component.ts:164-166) is never cancelled. When its price call answered from the token cache, it is still subscribed to the token subject. So each later `_saveToken` fetches the `USD/PLN` history again and redraws the chart with it, on top of whatever symbol the user has chosen since.
- Once `messages$` has errored or completed it stays ended. Reconnecting does not revive it, and later listeners are never added.
- A non-numeric stored expiry makes both `now < Number(e)` and `now >= Number(e)` false. Such a credential is never used at construction and never refreshed by `getToken`, which answers with the cached value.
- When the expiry key is live but the token key is missing, the service starts with a null token and `getToken` answers that null value without refreshing.

## Model

| member | source | states |
|---|---|---|
| Decimal.NatToString | src/app/services/auth.service.ts:51 | the decimal form of an integer is a non-empty run of digits with no leading zero |
| Decimal.NumberRoundTrip | src/app/services/auth.service.ts:39-51 | `Number(n.toString()) == n` for every integer `n` written as an expiry |
| Text.ToLowerIdempotent | src/app/components/assets/assets.component.ts:124 | lower-casing twice is lower-casing once |
| Text.IncludesEmpty | src/app/components/assets/assets.component.ts:124 | every string includes the empty string |
| Auth.StoreCredential | src/app/services/auth.service.ts:46-52 | saving touches only the two token keys; every other storage entry reads as before |
| Auth.ForgetCredential | src/app/services/auth.service.ts:56-58 | clearing touches only the two token keys; every other storage entry reads as before |
| Auth.AuthService.constructor | src/app/services/auth.service.ts:16-31 | the store is kept and the token subject starts with `InitialToken(store, now)` |
| Auth.AuthService.SaveToken | src/app/services/auth.service.ts:46-54 | the store gets the token and the expiry `now + expiresIn*1000` as a string; the subject's value becomes the token |
| Auth.AuthService.ClearToken | src/app/services/auth.service.ts:56-60 | both keys are removed and the subject's value becomes null |
| Auth.AuthService.RefreshToken | src/app/services/auth.service.ts:62-73 | a granted token is saved and returned; a failed exchange clears the credential and returns that same error |
| Auth.AuthService.GetToken | src/app/services/auth.service.ts:33-44 | without a needed refresh: the cached value, no exchange, nothing changed; with one: the outcome of `RefreshToken` |
| Auth.InitialTokenCharacterized | src/app/services/auth.service.ts:22-30 | the initial token is the stored one exactly when both keys are present, the token is non-empty and `now < Number(expiry)`; otherwise null |
| Auth.NeedsRefreshCharacterized | src/app/services/auth.service.ts:39-41 | a refresh happens exactly when the expiry is missing or empty or `now >= Number(expiry)` |
| Auth.NonNumericExpiryNeverRefreshes | src/app/services/auth.service.ts:22-41 | a present non-numeric expiry never triggers a refresh and gives a null initial token |
| Auth.ExpiryBoundary | src/app/services/auth.service.ts:22-41 | for an expiry written by `toString`, validity is `now < expiry` and a refresh happens from `now == expiry` on |
| Auth.SavedCredentialLifetime | src/app/services/auth.service.ts:33-52 | after a save, `getToken` refreshes exactly from `savedAt + expiresIn*1000` on, and a reload restores a non-empty token exactly before then |
| Auth.SavedCredentialNotRefreshedAtOnce | src/app/services/auth.service.ts:39-51 | with a positive lifetime, a `getToken` at the instant of saving does not refresh |
| Auth.ForgottenCredentialRefreshes | src/app/services/auth.service.ts:56-60 | after a clear both keys are absent, the next `getToken` refreshes and a reload starts with null |
| Auth.RefreshThenCached | src/app/services/auth.service.ts:33-54 | a first `getToken` refreshes; a second one at the same instant answers the saved token from the cache whatever the endpoint would say |
| PriceApi.SetParamAppends | src/app/services/price-api.service.ts:31-37 | setting a new key appends it to the parameter list |
| PriceApi.SetParamLookup | src/app/services/price-api.service.ts:31-37 | after `set(key, value)` the key reads `value` and other keys read as before |
| PriceApi.QueryParamsExact | src/app/services/price-api.service.ts:31-37 | the parameters are exactly `provider`, `interval`, `periodicity`, `startDate`, `endDate`, `instrumentId` in that order, strings unchanged and `interval` in decimal |
| PriceApi.QueryRoundTrip | src/app/services/price-api.service.ts:31-37 | decoding the parameters gives the query back; `interval` parses back to the same integer |
| PriceApi.BuildPriceRequestCharacterized | src/app/services/price-api.service.ts:23-37 | a null or empty token gives "No token available"; any other token gives a GET with header `"Bearer " + token` and the encoded query |
| PriceApi.NoTokenNoRequest | src/app/services/price-api.service.ts:23-25 | without a token the outcome is the error whatever any server would answer, so no request is made |
| PriceApi.GetPriceDataPropagates | src/app/services/price-api.service.ts:39-46 | the server's response is returned as it is, and an HTTP error comes out as that error |
| PriceApi.TokenErrorPropagates | src/app/services/price-api.service.ts:21-22 | an error from `getToken` reaches the caller unchanged |
| WebSocket.WebSocketService.constructor | src/app/services/websocket.service.ts:18-26 | no socket, a null token value, the token feed subscribed, `messages$` live and empty |
| WebSocket.WebSocketService.OnAuthToken | src/app/services/websocket.service.ts:21-40 | a token emission sets `_token$`; with a non-empty token each connect listener opens a socket on `base + "?token=" + token` and the last one is kept; a null or empty token changes no socket |
| WebSocket.WebSocketService.Connect | src/app/services/websocket.service.ts:28-41 | one more token listener; with a non-empty current token a fresh socket on the token's URL replaces the reference; otherwise the socket is as before |
| WebSocket.WebSocketService.SendMessage | src/app/services/websocket.service.ts:43-49 | with a socket the message is appended once, unchanged, for that socket; without one nothing is sent and one error is logged |
| WebSocket.WebSocketService.CloseConnection | src/app/services/websocket.service.ts:51-58 | the current socket, if any, is completed; the subscription `_tokenSubscription` refers to is dropped; safe with no socket |
| WebSocket.WebSocketService.OnSocketEvent | src/app/services/websocket.service.ts:34-38 | an inbound message is emitted on `messages$` unchanged; an error or completion ends it; an ended subject ignores everything |
| WebSocket.WebSocketService.Subscribe | src/app/services/websocket.service.ts:15-16 | a live `messages$` adds a new observer with a fresh id; an ended one adds none |
| WebSocket.WebSocketService.Unsubscribe | src/app/components/assets/assets.component.ts:213-215 | the observer is removed and nothing else changes |
| WebSocket.SocketUrlCarriesToken | src/app/services/websocket.service.ts:31 | the URL is exactly `base`, then `?token=`, then the token |
| WebSocket.SocketUrlInjective | src/app/services/websocket.service.ts:31 | different tokens give different URLs |
| WebSocket.EndedStreamStays | src/app/services/websocket.service.ts:34-38 | after an error or completion no later socket event changes `messages$` |
| WebSocket.ForwardAllDelivers | src/app/services/websocket.service.ts:34-38 | `messages$` emits the inbound messages unchanged and in order up to the first error or completion; it stays live exactly when there was none |
| Assets.AssetsComponent.constructor | src/app/components/assets/assets.component.ts:61-72 | empty symbol, no instrument id, no quote, no listener, no request |
| Assets.AssetsComponent.LoadPriceHistory | src/app/components/assets/assets.component.ts:168-192 | no id, no request; otherwise one `getPriceData` call with provider `oanda`, interval 1, periodicity `day`, 2023-06-08 to 2024-06-08 and the id, then the series is charted as it came or the error is logged |
| Assets.AssetsComponent.FetchInstrumentIdAndLoadPriceHistory | src/app/components/assets/assets.component.ts:142-162 | a resolved id is stored before the history request; no id leaves `_instrumentId` unchanged, logs, and requests nothing |
| Assets.AssetsComponent.LoadInitialPriceHistory | src/app/components/assets/assets.component.ts:164-166 | the history chain for `USD/PLN`: no id logs "Instrument ID not found for symbol: USD/PLN" and requests nothing; a resolved id is stored, the fixed query is requested, and the series is charted as it came or the error is logged |
| Assets.AssetsComponent.OnSymbolChange | src/app/components/assets/assets.component.ts:130-140 | each accepted symbol value is stored and runs the history chain, a null value as the empty string: no id logs and leaves id, requests and chart alone; a resolved id is stored, the fixed query is requested, and the series is charted as it came or the error is logged |
| Assets.AssetsComponent.FetchInstrumentIdAndSubscribeToWebSocket | src/app/components/assets/assets.component.ts:194-229 | a resolved id is stored, `connect()` runs, the old listener is unsubscribed before the new one is stored so `messages$` keeps only the new one, and the message `l1-subscription`/`1`/`simulation`/subscribe/`[ask,bid,last]` with the id is sent; no id changes no session and logs |
| Assets.AssetsComponent.SubscribeToWebSocket | src/app/components/assets/assets.component.ts:90-95 | with a null or empty symbol nothing changes; otherwise the subscribe chain for the symbol |
| Assets.AssetsComponent.OnSocketEvent | src/app/components/assets/assets.component.ts:216-223 | `messages$` passes the event on; the quote changes only when the component's listener gets a message with a `last` side, and then becomes exactly that side; the socket, logs, token feed and listeners are unchanged |
| Assets.AssetsComponent.UnsubscribeAll | src/app/components/assets/assets.component.ts:97-107 | the listener is unsubscribed, leaving `messages$` with no observer and every other part of the socket session as it was, and the chart is gone |
| Assets.FilterMembership | src/app/components/assets/assets.component.ts:122-126 | a symbol is kept exactly when it is in the list and its lower-cased form includes the lower-cased input |
| Assets.FilterKeepsMatches | src/app/components/assets/assets.component.ts:122-126 | every kept symbol matches the input |
| Assets.FilterIsSubsequence | src/app/components/assets/assets.component.ts:123 | the output is a subsequence of the input list, in the input's order |
| Assets.FilterConcat | src/app/components/assets/assets.component.ts:123 | filtering distributes over concatenation, so each symbol is judged on its own |
| Assets.FilterIdempotent | src/app/components/assets/assets.component.ts:123 | filtering the output again with the same input changes nothing |
| Assets.FilterEmptyKeepsAll | src/app/components/assets/assets.component.ts:110-126 | the empty start value keeps every symbol |
| Assets.FilterIgnoresInputCase | src/app/components/assets/assets.component.ts:124 | the input's case does not change the result |
| Assets.HistoryQueryParams | src/app/components/assets/assets.component.ts:172-179 | the history query encodes to `oanda`, `1`, `day`, `2023-06-08`, `2024-06-08` and the id |
| Assets.ShowQuotesSnoc | src/app/components/assets/assets.component.ts:219-221 | showing a run of messages and then one more is showing the longer run |
| Assets.ShowQuotesLatestWins | src/app/components/assets/assets.component.ts:219-221 | after any run of messages the quote is the `last` side of the latest message that has one, or what it was if none has |
| Assets.SubscribeTwice | src/app/components/assets/assets.component.ts:194-229 | subscribing to A then B leaves one listener, sends both messages to two different sockets, and a later message with a `last` side sets the quote |

## Left out

- RxJS scheduling: `debounceTime`, `distinctUntilChanged`, `startWith` and the cancellation done by `switchMap` are not modelled. Each accepted input is one method call, and a superseded chain is simply never called.
- Refresh sharing and `connect()` idempotence: the code does neither, so the model does not promise them.
- I/O: HTTP calls, the real `sessionStorage`, the real WebSocket, `console.error` output and `new Date().getTime()` are not modelled as such. The storage is a map; the log is a sequence of strings; the clock, the exchange outcome, the server's answer and socket events are parameters.
- `getSymbols` and `getInstrumentIdBySymbol` (the file defining them is not part of this model): their results are inputs, a symbol list and an optional id.
- src/app/services/instruments-api.service.ts: a plain HTTP wrapper whose token guard is the one in the price service.
- `_getAuth`: the form-encoded request and its configuration are not modelled; its outcome is an input.
- `_renderChart` and Highcharts: the chart is modelled as the price series it was given; date parsing and drawing are not modelled.
- src/app/app.component.ts and src/app/app.routes.ts: presentation and routing.
- `_priceHistorySubscription` is never assigned in the source, so its `unsubscribe` branches are dead code and not modelled.
- A failed refresh behind the socket service's constructor is not modelled. Its `getToken()` subscription (websocket.service.ts:21-25) has only a `next` callback, so the error is reported by RxJS as unhandled and the feed emits no more tokens. In the model the caller simply makes no more `OnAuthToken` calls.
- WebSocket.WebSocketService.constructor: the token feed is abstracted. When `getToken()` answers from the cache it returns the token subject itself (auth.service.ts:43). That subject hands its current value to the socket service synchronously during construction, and then forwards every later `_saveToken`/`_clearToken` (auth.service.ts:53,59). On the refresh path the feed emits once and completes. The model's constructor leaves `_token$` null, every emission is a separate `OnAuthToken` call, and `authFeedActive` stays true after a feed that has completed.
- The terminal notification an ended `messages$` hands a late subscriber is not modelled; such a subscriber is just not added.
- When several connect listeners open sockets on one token emission, the model counts them and keeps the last; the earlier ones are not tracked on their own. Socket events are taken from any socket.
- `ESessionStorageKeys` is declared in a file that is not part of this model. The keys are written `access_token` and `expiration_time`; the proofs rely only on their being different.
- `webSocketChanelUrl` comes from a configuration file that is not part of this model; it is the constructor parameter `channelUrl`.
- PriceApi.GetPriceData: the token input is one emission of `getToken()`. When that answers from the cache it is the token subject itself (auth.service.ts:43), and that subject never completes. Through `switchMap` (price-api.service.ts:21-22), each later `_saveToken` (auth.service.ts:53) requests the bars again, and `_loadPriceHistory` charts the new series. A later `_clearToken` (auth.service.ts:59) raises "No token available", which `_loadPriceHistory` logs before its chain ends. The model covers one emission for each call; `Assets.AssetsComponent.LoadPriceHistory` therefore takes one token outcome and one response.
- Decimal.ParseNumber: only an optional sign followed by decimal digits is read as a number. Other strings JavaScript's `Number` accepts (surrounding whitespace, fractions, exponents, hexadecimal, `Infinity`) are treated as `NaN`.
- Decimal.IntToString: JavaScript numbers are doubles; the model uses unbounded integers. It is exact only up to 2^53, and `toString` switches to exponent notation from 10^21. Non-integer `expires_in` values are not modelled.
- Text.LowerChar: only ASCII capitals are lower-cased; the full Unicode case mapping of `toLowerCase` is not modelled.
- Prices and volumes are `real` values that are passed along and never computed on.
- HttpParams' URL encoding of the parameter list is not modelled, and neither is the price service's error logging.
