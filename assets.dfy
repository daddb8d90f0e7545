/** The assets component: the autocomplete filter, the price-history chain
    (resolve an instrument id, then request its history), the subscribe
    chain (resolve, connect, swap the message listener, send the
    subscription) and the displayed quote.  The instrument directory's
    answers and the price service's responses are inputs. */
module Assets {
  import opened Wrappers
  import opened Models
  import opened Text
  import PriceApi
  import Decimal
  import opened WebSocket

  const DefaultSymbol: string := "USD/PLN"
  const PriceHistoryError: string := "Error fetching price history"

  function NotFoundMessage(symbol: string): string {
    "Instrument ID not found for symbol: " + symbol
  }

  /** The autocomplete test: the lower-cased symbol contains the lower-cased input. */
  predicate Matches(symbol: string, value: string) {
    Includes(ToLower(symbol), ToLower(value))
  }

  /** `_filterSymbols(value)` applied to the directory's symbol list. */
  function FilterSymbols(symbols: seq<string>, value: string): seq<string> {
    if symbols == [] then []
    else (if Matches(symbols[0], value) then [symbols[0]] else []) + FilterSymbols(symbols[1..], value)
  }

  /** `a` is `b` with some elements left out, the rest in their order. */
  predicate IsSubsequence<T(==)>(a: seq<T>, b: seq<T>)
    decreases |b|
  {
    if a == [] then true
    else if b == [] then false
    else if a[0] == b[0] then IsSubsequence(a[1..], b[1..])
    else IsSubsequence(a, b[1..])
  }

  /** The query `_loadPriceHistory` sends for instrument `id`. */
  function HistoryQuery(id: string): PriceQueryParams {
    PriceQueryParams("oanda", 1, "day", "2023-06-08", "2024-06-08", id)
  }

  /** The control message `_fetchInstrumentIdAndSubscribeToWebSocket` sends for instrument `id`. */
  function L1Subscription(id: string): SubscriptionMessage {
    SubscriptionMessage("l1-subscription", "1", id, "simulation", true, ["ask", "bid", "last"])
  }

  /** The message listener: a message with a `last` side shows that side;
      any other message leaves the displayed quote as it was. */
  function ShowQuote(quote: Option<MarketOrder>, m: WebSocketMessage): Option<MarketOrder> {
    if m.last.Some? then m.last else quote
  }

  /** The displayed quote after the listener has seen `ms` in order. */
  function ShowQuotes(quote: Option<MarketOrder>, ms: seq<WebSocketMessage>): Option<MarketOrder>
    decreases |ms|
  {
    if ms == [] then quote else ShowQuotes(ShowQuote(quote, ms[0]), ms[1..])
  }

  /** The `last` side of the latest message in `ms` that has one. */
  function LatestLast(ms: seq<WebSocketMessage>): Option<MarketOrder> {
    if ms == [] then None
    else if ms[|ms| - 1].last.Some? then ms[|ms| - 1].last
    else LatestLast(ms[..|ms| - 1])
  }

  function ListenerIds(listener: Option<nat>): set<nat> {
    if listener.Some? then {listener.value} else {}
  }

  class AssetsComponent {
    const ws: WebSocketService
    /** `symbolControl.value`. */
    var symbol: Option<string>
    /** `_instrumentId`, unset until an id is resolved. */
    var instrumentId: Option<string>
    /** The `marketOrder` signal. */
    var marketOrder: Option<MarketOrder>
    /** `_websocketSubscription`: the observer id of the message listener. */
    var listener: Option<nat>
    /** Every price-history query issued, in order. */
    var historyRequests: seq<PriceQueryParams>
    /** The price series the chart shows. */
    var chart: Option<seq<PriceData>>
    /** What `console.error` has logged. */
    var console: seq<string>

    /** The session is consistent and `messages$` has no observer except
        the listener this component holds: at most one listener is active. */
    ghost predicate Valid()
      reads this, ws
    {
      ws.Valid() && ws.messages.observers <= ListenerIds(listener)
    }

    constructor (service: WebSocketService)
      requires service.Valid() && service.messages.observers == {}
      ensures Valid() && ws == service
      ensures symbol == Some("") && instrumentId == None && marketOrder == None && listener == None
      ensures historyRequests == [] && chart == None && console == []
    {
      ws := service;
      symbol := Some("");
      instrumentId := None;
      marketOrder := None;
      listener := None;
      historyRequests := [];
      chart := None;
      console := [];
    }

    /** `_loadPriceHistory()`, where `response` is what `getPriceData`
        ends with: no request without an instrument id; otherwise one
        request with the fixed query, and then either the series is charted
        as it came or the error is logged. */
    method LoadPriceHistory(response: Result<PriceResponse, PriceApi.PriceError>)
      requires Valid()
      modifies this
      ensures Valid()
      ensures !IsTruthy(old(instrumentId)) ==>
        historyRequests == old(historyRequests) && chart == old(chart) && console == old(console)
      ensures IsTruthy(old(instrumentId)) ==>
        && historyRequests == old(historyRequests) + [HistoryQuery(old(instrumentId).value)]
        && (response.Success? ==> chart == Some(response.value.data) && console == old(console))
        && (response.Failure? ==> chart == old(chart) && console == old(console) + [PriceHistoryError])
      ensures symbol == old(symbol) && instrumentId == old(instrumentId)
      ensures marketOrder == old(marketOrder) && listener == old(listener)
    {
      if !IsTruthy(instrumentId) {
        return;
      }
      historyRequests := historyRequests + [HistoryQuery(instrumentId.value)];
      match response
      case Success(r) =>
        chart := Some(r.data);
      case Failure(_) =>
        console := console + [PriceHistoryError];
    }

    /** `_fetchInstrumentIdAndLoadPriceHistory(sym)`, where the directory
        resolved `sym` to `resolved`: an id is stored before the history is
        loaded; no id leaves `_instrumentId` alone, logs, and requests nothing. */
    method FetchInstrumentIdAndLoadPriceHistory(sym: string, resolved: Option<string>,
                                                response: Result<PriceResponse, PriceApi.PriceError>)
      requires Valid()
      modifies this
      ensures Valid()
      ensures !IsTruthy(resolved) ==>
        && instrumentId == old(instrumentId) && historyRequests == old(historyRequests)
        && chart == old(chart) && console == old(console) + [NotFoundMessage(sym)]
      ensures IsTruthy(resolved) ==>
        && instrumentId == resolved
        && historyRequests == old(historyRequests) + [HistoryQuery(resolved.value)]
        && (response.Success? ==> chart == Some(response.value.data) && console == old(console))
        && (response.Failure? ==> chart == old(chart) && console == old(console) + [PriceHistoryError])
      ensures symbol == old(symbol) && marketOrder == old(marketOrder) && listener == old(listener)
    {
      if IsTruthy(resolved) {
        instrumentId := resolved;
        LoadPriceHistory(response);
      } else {
        console := console + [NotFoundMessage(sym)];
      }
    }

    /** `_loadInitialPriceHistory()`: the history chain for the default symbol. */
    method LoadInitialPriceHistory(resolved: Option<string>, response: Result<PriceResponse, PriceApi.PriceError>)
      requires Valid()
      modifies this
      ensures Valid()
      ensures !IsTruthy(resolved) ==>
        && instrumentId == old(instrumentId) && historyRequests == old(historyRequests)
        && chart == old(chart) && console == old(console) + ["Instrument ID not found for symbol: USD/PLN"]
      ensures IsTruthy(resolved) ==>
        && instrumentId == resolved
        && historyRequests == old(historyRequests) + [HistoryQuery(resolved.value)]
        && (response.Success? ==> chart == Some(response.value.data) && console == old(console))
        && (response.Failure? ==> chart == old(chart) && console == old(console) + [PriceHistoryError])
      ensures symbol == old(symbol) && marketOrder == old(marketOrder) && listener == old(listener)
    {
      assert NotFoundMessage(DefaultSymbol) == "Instrument ID not found for symbol: USD/PLN";
      FetchInstrumentIdAndLoadPriceHistory(DefaultSymbol, resolved, response);
    }

    /** One accepted value of the symbol control in `_subscribeToSymbolChanges`:
        the history chain runs for the value, a null value as the empty string. */
    method OnSymbolChange(value: Option<string>, resolved: Option<string>,
                          response: Result<PriceResponse, PriceApi.PriceError>)
      requires Valid()
      modifies this
      ensures Valid()
      ensures symbol == value
      ensures !IsTruthy(resolved) ==>
        && instrumentId == old(instrumentId) && historyRequests == old(historyRequests)
        && chart == old(chart) && console == old(console) + [NotFoundMessage(value.GetOr(""))]
      ensures IsTruthy(resolved) ==>
        && instrumentId == resolved
        && historyRequests == old(historyRequests) + [HistoryQuery(resolved.value)]
        && (response.Success? ==> chart == Some(response.value.data) && console == old(console))
        && (response.Failure? ==> chart == old(chart) && console == old(console) + [PriceHistoryError])
      ensures marketOrder == old(marketOrder) && listener == old(listener)
    {
      symbol := value;
      FetchInstrumentIdAndLoadPriceHistory(value.GetOr(""), resolved, response);
    }

    /** The effect of the subscribe chain for a resolved id: the id is
        stored; `connect()` adds a listener on the token; the previous
        message listener is unsubscribed before the new one is stored, so
        `messages$` is left with only the new one (none if it has ended);
        the subscription message goes to the socket, or an error is logged. */
    twostate predicate SubscribedTo(id: string)
      reads this, ws
    {
      && instrumentId == Some(id)
      && console == old(console)
      && listener == Some(old(ws.messages.nextObserver))
      && ws.messages.observers == (if old(ws.messages.state).Live? then {old(ws.messages.nextObserver)} else {})
      && ws.messages.state == old(ws.messages.state) && ws.messages.delivered == old(ws.messages.delivered)
      && ws.messages.nextObserver == old(ws.messages.nextObserver) + 1
      && ws.token == old(ws.token) && ws.authFeedActive == old(ws.authFeedActive)
      && ws.listeners == old(ws.listeners) + 1 && ws.tracked == ConnectListener && ws.trackedActive
      && ws.created == (if IsTruthy(old(ws.token)) then old(ws.created) + 1 else old(ws.created))
      && ws.socket == (if IsTruthy(old(ws.token)) then Some(Socket(old(ws.created), SocketUrl(ws.base, old(ws.token).value)))
                       else old(ws.socket))
      && (ws.socket.Some? ==>
            && ws.sent == old(ws.sent) + [Sent(ws.socket.value.id, L1Subscription(id))]
            && ws.errors == old(ws.errors))
      && (ws.socket.None? ==> ws.sent == old(ws.sent) && ws.errors == old(ws.errors) + [NotInitializedMessage])
      && ws.completed == old(ws.completed)
    }

    /** `_fetchInstrumentIdAndSubscribeToWebSocket(sym)`, where the
        directory resolved `sym` to `resolved`. */
    method FetchInstrumentIdAndSubscribeToWebSocket(sym: string, resolved: Option<string>)
      requires Valid()
      modifies this, ws
      ensures Valid()
      ensures IsTruthy(resolved) ==> SubscribedTo(resolved.value)
      ensures !IsTruthy(resolved) ==>
        && unchanged(ws) && instrumentId == old(instrumentId) && listener == old(listener)
        && console == old(console) + [NotFoundMessage(sym)]
      ensures symbol == old(symbol) && marketOrder == old(marketOrder)
      ensures historyRequests == old(historyRequests) && chart == old(chart)
    {
      if IsTruthy(resolved) {
        instrumentId := resolved;
        var message := L1Subscription(resolved.value);
        ws.Connect();
        if listener.Some? {
          ws.Unsubscribe(listener.value);
        }
        var id := ws.Subscribe();
        listener := Some(id);
        ws.SendMessage(message);
      } else {
        console := console + [NotFoundMessage(sym)];
      }
    }

    /** `subscribeToWebSocket()`: the subscribe chain for the current symbol,
        or nothing at all when the symbol is null or empty. */
    method SubscribeToWebSocket(resolved: Option<string>)
      requires Valid()
      modifies this, ws
      ensures Valid()
      ensures !IsTruthy(old(symbol)) ==> unchanged(this) && unchanged(ws)
      ensures IsTruthy(old(symbol)) && IsTruthy(resolved) ==> SubscribedTo(resolved.value)
      ensures IsTruthy(old(symbol)) && !IsTruthy(resolved) ==>
        && unchanged(ws) && instrumentId == old(instrumentId) && listener == old(listener)
        && console == old(console) + [NotFoundMessage(old(symbol).value)]
      ensures symbol == old(symbol) && marketOrder == old(marketOrder)
      ensures historyRequests == old(historyRequests) && chart == old(chart)
    {
      if IsTruthy(symbol) {
        FetchInstrumentIdAndSubscribeToWebSocket(symbol.value, resolved);
      }
    }

    /** A socket reports `e`: `messages$` passes it on, and the displayed
        quote changes only when this component's listener receives a message
        with a `last` side. */
    method OnSocketEvent(e: SocketEvent)
      requires Valid()
      modifies this, ws
      ensures Valid()
      ensures ws.messages == Forward(old(ws.messages), e)
      ensures marketOrder ==
        if e.Inbound? && old(listener).Some? && old(listener).value in old(ws.messages.observers)
        then ShowQuote(old(marketOrder), e.message) else old(marketOrder)
      ensures ws.socket == old(ws.socket) && ws.sent == old(ws.sent) && ws.errors == old(ws.errors)
      ensures ws.listeners == old(ws.listeners) && ws.completed == old(ws.completed)
      ensures ws.token == old(ws.token) && ws.authFeedActive == old(ws.authFeedActive) && ws.created == old(ws.created)
      ensures ws.tracked == old(ws.tracked) && ws.trackedActive == old(ws.trackedActive)
      ensures symbol == old(symbol) && instrumentId == old(instrumentId) && listener == old(listener)
      ensures historyRequests == old(historyRequests) && chart == old(chart) && console == old(console)
    {
      var notified := ws.OnSocketEvent(e);
      if e.Inbound? && listener.Some? && listener.value in notified {
        marketOrder := ShowQuote(marketOrder, e.message);
      }
    }

    /** `ngOnDestroy()`: the message listener is unsubscribed, which leaves
        `messages$` with no observer, and the chart is destroyed. */
    method UnsubscribeAll()
      requires Valid()
      modifies this, ws
      ensures Valid()
      ensures ws.messages.observers == {}
      ensures ws.messages.state == old(ws.messages.state) && ws.messages.delivered == old(ws.messages.delivered)
      ensures ws.messages.nextObserver == old(ws.messages.nextObserver)
      ensures ws.socket == old(ws.socket) && ws.sent == old(ws.sent) && ws.listeners == old(ws.listeners)
      ensures ws.errors == old(ws.errors) && ws.completed == old(ws.completed) && ws.created == old(ws.created)
      ensures ws.token == old(ws.token) && ws.authFeedActive == old(ws.authFeedActive)
      ensures ws.tracked == old(ws.tracked) && ws.trackedActive == old(ws.trackedActive)
      ensures chart == None
      ensures symbol == old(symbol) && instrumentId == old(instrumentId) && listener == old(listener)
      ensures marketOrder == old(marketOrder) && historyRequests == old(historyRequests) && console == old(console)
    {
      if listener.Some? {
        ws.Unsubscribe(listener.value);
      }
      chart := None;
    }
  }

  /** A symbol is kept exactly when it is in the list and matches the input. */
  lemma {:induction false} FilterMembership(symbols: seq<string>, value: string, s: string)
    ensures s in FilterSymbols(symbols, value) <==> s in symbols && Matches(s, value)
  {
    if symbols != [] {
      FilterMembership(symbols[1..], value, s);
      assert symbols == [symbols[0]] + symbols[1..];
    }
  }

  /** Every kept symbol matches the input. */
  lemma {:induction false} FilterKeepsMatches(symbols: seq<string>, value: string)
    ensures forall i :: 0 <= i < |FilterSymbols(symbols, value)| ==> Matches(FilterSymbols(symbols, value)[i], value)
  {
    if symbols != [] {
      FilterKeepsMatches(symbols[1..], value);
    }
  }

  /** The output is the input with the non-matching symbols left out, in the input's order. */
  lemma {:induction false} FilterIsSubsequence(symbols: seq<string>, value: string)
    ensures IsSubsequence(FilterSymbols(symbols, value), symbols)
  {
    if symbols != [] {
      var rest := FilterSymbols(symbols[1..], value);
      FilterIsSubsequence(symbols[1..], value);
      if Matches(symbols[0], value) {
        assert FilterSymbols(symbols, value) == [symbols[0]] + rest;
        assert ([symbols[0]] + rest)[1..] == rest;
      } else {
        assert FilterSymbols(symbols, value) == rest;
        if rest != [] {
          FilterKeepsMatches(symbols[1..], value);
          assert rest[0] != symbols[0];
        }
      }
    }
  }

  /** Filtering a list piece by piece gives the filtered pieces, concatenated:
      which symbols are kept depends on each symbol alone. */
  lemma {:induction false} FilterConcat(a: seq<string>, b: seq<string>, value: string)
    ensures FilterSymbols(a + b, value) == FilterSymbols(a, value) + FilterSymbols(b, value)
  {
    if a != [] {
      assert (a + b)[0] == a[0];
      assert (a + b)[1..] == a[1..] + b;
      FilterConcat(a[1..], b, value);
    } else {
      assert a + b == b;
    }
  }

  /** Filtering again with the same input changes nothing. */
  lemma {:induction false} FilterIdempotent(symbols: seq<string>, value: string)
    ensures FilterSymbols(FilterSymbols(symbols, value), value) == FilterSymbols(symbols, value)
  {
    if symbols != [] {
      var rest := FilterSymbols(symbols[1..], value);
      FilterIdempotent(symbols[1..], value);
      if Matches(symbols[0], value) {
        var kept := [symbols[0]] + rest;
        assert kept[0] == symbols[0] && kept[1..] == rest;
        assert FilterSymbols(kept, value) == [symbols[0]] + FilterSymbols(rest, value);
      } else {
        assert FilterSymbols(symbols, value) == rest;
      }
    }
  }

  /** The empty input, the control's start value, keeps every symbol. */
  lemma {:induction false} FilterEmptyKeepsAll(symbols: seq<string>)
    ensures FilterSymbols(symbols, "") == symbols
  {
    if symbols != [] {
      IncludesEmpty(ToLower(symbols[0]));
      assert ToLower("") == "";
      FilterEmptyKeepsAll(symbols[1..]);
      assert symbols == [symbols[0]] + symbols[1..];
    }
  }

  /** The case of the input does not matter. */
  lemma FilterIgnoresInputCase(symbols: seq<string>, value: string)
    ensures FilterSymbols(symbols, value) == FilterSymbols(symbols, ToLower(value))
  {
    ToLowerIdempotent(value);
  }

  /** The history query encodes to provider `oanda`, interval `1`,
      periodicity `day`, 2023-06-08 to 2024-06-08 and the resolved id. */
  lemma HistoryQueryParams(id: string)
    ensures PriceApi.QueryParams(HistoryQuery(id)) == [
      ("provider", "oanda"), ("interval", "1"), ("periodicity", "day"),
      ("startDate", "2023-06-08"), ("endDate", "2024-06-08"), ("instrumentId", id)]
  {
    PriceApi.QueryParamsExact(HistoryQuery(id));
    assert Decimal.IntToString(1) == "1";
  }

  lemma {:induction false} ShowQuotesSnoc(quote: Option<MarketOrder>, ms: seq<WebSocketMessage>, m: WebSocketMessage)
    ensures ShowQuotes(quote, ms + [m]) == ShowQuote(ShowQuotes(quote, ms), m)
    decreases |ms|
  {
    if ms != [] {
      assert (ms + [m])[1..] == ms[1..] + [m];
      ShowQuotesSnoc(ShowQuote(quote, ms[0]), ms[1..], m);
    }
  }

  /** After any run of messages the displayed quote is the `last` side of the
      latest message that has one; when none has, it is what it was. */
  lemma {:induction false} ShowQuotesLatestWins(quote: Option<MarketOrder>, ms: seq<WebSocketMessage>)
    ensures ShowQuotes(quote, ms) == if LatestLast(ms).Some? then LatestLast(ms) else quote
    decreases |ms|
  {
    if ms != [] {
      var init := ms[..|ms| - 1];
      assert ms == init + [ms[|ms| - 1]];
      ShowQuotesSnoc(quote, init, ms[|ms| - 1]);
      ShowQuotesLatestWins(quote, init);
    }
  }

  /** Subscribing to one instrument and then to another leaves exactly one
      listener on `messages$`; a message arriving afterwards updates the
      quote whenever it has a `last` side, whichever instrument it is for. */
  method SubscribeTwice(channelUrl: string, token: string, idA: string, idB: string, m: WebSocketMessage)
    returns (observers: set<nat>, quote: Option<MarketOrder>, sent: seq<Sent>)
    requires token != "" && idA != "" && idB != ""
    ensures |observers| == 1
    ensures quote == m.last
    ensures |sent| == 2 && sent[0].message.instrumentId == idA && sent[1].message.instrumentId == idB
    ensures sent[0].socket != sent[1].socket
  {
    var ws := new WebSocketService(channelUrl);
    ws.OnAuthToken(Some(token));
    var component := new AssetsComponent(ws);
    component.FetchInstrumentIdAndSubscribeToWebSocket("A", Some(idA));
    assert ws.socket.value.id == 0 && ws.created == 1;
    component.FetchInstrumentIdAndSubscribeToWebSocket("B", Some(idB));
    assert ws.socket.value.id == 1;
    component.OnSocketEvent(Inbound(m));
    observers := ws.messages.observers;
    quote := component.marketOrder;
    sent := ws.sent;
  }
}
