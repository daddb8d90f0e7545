/** The application's data interfaces as values.  Prices and volumes are
    JavaScript numbers the model never computes with; they are `real`. */
module Models {
  import opened Wrappers

  /** JavaScript truthiness of a `string | null | undefined`: present and non-empty. */
  predicate IsTruthy(s: Option<string>) {
    s.Some? && s.value != ""
  }

  /** One OHLC bar (`IPriceData`). */
  datatype PriceData = PriceData(t: string, o: real, h: real, l: real, c: real, v: real)

  /** `IPriceResponse`. */
  datatype PriceResponse = PriceResponse(data: seq<PriceData>)

  /** `IPriceQueryParams`; `interval` is an integral JavaScript number. */
  datatype PriceQueryParams = PriceQueryParams(
    provider: string,
    interval: int,
    periodicity: string,
    startDate: string,
    endDate: string,
    instrumentId: string)

  /** `EPriceQueryParams`: the names of the price query parameters. */
  datatype PriceQueryParam = Provider | Interval | Periodicity | StartDate | EndDate | InstrumentId {
    function Key(): string {
      match this
      case Provider => "provider"
      case Interval => "interval"
      case Periodicity => "periodicity"
      case StartDate => "startDate"
      case EndDate => "endDate"
      case InstrumentId => "instrumentId"
    }
  }

  /** One side of a top-of-book quote (`IMarketOrder`). */
  datatype MarketOrder = MarketOrder(timestamp: string, price: real, volume: real)

  /** An inbound socket message (`IWebSocketMessage`); `type` is `messageType` here. */
  datatype WebSocketMessage = WebSocketMessage(
    bid: Option<MarketOrder>,
    ask: Option<MarketOrder>,
    last: Option<MarketOrder>,
    instrumentId: string,
    provider: string,
    messageType: string)

  /** The outbound control message the component builds for an L1 subscription. */
  datatype SubscriptionMessage = SubscriptionMessage(
    messageType: string,
    id: string,
    instrumentId: string,
    provider: string,
    subscribe: bool,
    kinds: seq<string>)

  /** A provider-specific entry of `IInstrument.mappings`. */
  datatype InstrumentMapping = InstrumentMapping(symbol: string, exchange: string, defaultOrderSize: real)

  /** `IInstrument`. */
  datatype Instrument = Instrument(
    id: string,
    symbol: string,
    kind: string,
    description: string,
    tickSize: real,
    currency: string,
    baseCurrency: string,
    mappings: map<string, InstrumentMapping>)

  /** `IInstrumentResponse`. */
  datatype Paging = Paging(page: int, pages: int, items: int)
  datatype InstrumentResponse = InstrumentResponse(paging: Paging, data: seq<Instrument>)

  /** The identity endpoint's answer: an access token and its lifetime in seconds. */
  datatype AuthResponse = AuthResponse(accessToken: string, expiresIn: int)

  /** An HTTP failure, passed along by the services without being looked into. */
  datatype HttpError = HttpError(status: int, message: string)
}
