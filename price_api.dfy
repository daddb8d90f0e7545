/** The price-history request: given the token `getToken` produced and the
    query parameters, either the error "No token available" or a GET with a
    Bearer header and six query parameters; the server's answer or error is
    passed through. */
module PriceApi {
  import opened Wrappers
  import opened Models
  import Decimal

  const BaseUrl: string := "https://platform.fintacharts.com/api/bars/v1/bars/date-range"
  const NoTokenMessage: string := "No token available"

  /** A query parameter list in insertion order, as `HttpParams` keeps it. */
  type Params = seq<(string, string)>

  datatype PriceRequest = PriceRequest(url: string, authorization: string, params: Params)

  /** The two ways `getPriceData` can fail: no token, or an error raised
      upstream (by `getToken` or by the HTTP call), passed on unchanged. */
  datatype PriceError = NoToken(message: string) | Propagated(cause: HttpError)

  function Keys(ps: Params): seq<string> {
    seq(|ps|, i requires 0 <= i < |ps| => ps[i].0)
  }

  /** `params.get(key)`: the value of the first entry with that key. */
  function Lookup(ps: Params, key: string): Option<string> {
    if ps == [] then None else if ps[0].0 == key then Some(ps[0].1) else Lookup(ps[1..], key)
  }

  /** `params.set(key, value)`: an existing key keeps its place and gets the
      new value; a new key is appended. */
  function SetParam(ps: Params, key: string, value: string): Params {
    if ps == [] then [(key, value)]
    else if ps[0].0 == key then [(key, value)] + ps[1..]
    else [ps[0]] + SetParam(ps[1..], key, value)
  }

  /** The parameter chain of `getPriceData`. */
  function QueryParams(q: PriceQueryParams): Params {
    var p1 := SetParam([], Provider.Key(), q.provider);
    var p2 := SetParam(p1, Interval.Key(), Decimal.IntToString(q.interval));
    var p3 := SetParam(p2, Periodicity.Key(), q.periodicity);
    var p4 := SetParam(p3, StartDate.Key(), q.startDate);
    var p5 := SetParam(p4, EndDate.Key(), q.endDate);
    SetParam(p5, InstrumentId.Key(), q.instrumentId)
  }

  /** Reads the query back from a parameter list, as the server would. */
  function DecodeQuery(ps: Params): Option<PriceQueryParams> {
    var provider := Lookup(ps, Provider.Key());
    var interval := Lookup(ps, Interval.Key());
    var periodicity := Lookup(ps, Periodicity.Key());
    var startDate := Lookup(ps, StartDate.Key());
    var endDate := Lookup(ps, EndDate.Key());
    var instrumentId := Lookup(ps, InstrumentId.Key());
    if provider.Some? && interval.Some? && Decimal.ParseNumber(interval.value).Some? && periodicity.Some?
       && startDate.Some? && endDate.Some? && instrumentId.Some?
    then Some(PriceQueryParams(provider.value, Decimal.ParseNumber(interval.value).value, periodicity.value,
                               startDate.value, endDate.value, instrumentId.value))
    else None
  }

  /** The request `getPriceData` issues for `token`, or why it issues none. */
  function BuildPriceRequest(token: Option<string>, q: PriceQueryParams): Result<PriceRequest, PriceError> {
    if !IsTruthy(token) then Failure(NoToken(NoTokenMessage))
    else Success(PriceRequest(BaseUrl, "Bearer " + token.value, QueryParams(q)))
  }

  /** `getPriceData(q)` where `getToken` ended with `token` and the server
      answers a request with `server(request)`. */
  function GetPriceData(token: Result<Option<string>, HttpError>, q: PriceQueryParams,
                        server: PriceRequest -> Result<PriceResponse, HttpError>): Result<PriceResponse, PriceError> {
    match token
    case Failure(e) => Failure(Propagated(e))
    case Success(t) =>
      match BuildPriceRequest(t, q)
      case Failure(err) => Failure(err)
      case Success(request) =>
        match server(request)
        case Success(response) => Success(response)
        case Failure(e) => Failure(Propagated(e))
  }

  /** Setting a key that is not there yet appends it. */
  lemma {:induction false} SetParamAppends(ps: Params, key: string, value: string)
    requires key !in Keys(ps)
    ensures SetParam(ps, key, value) == ps + [(key, value)]
  {
    if ps != [] {
      assert ps[0].0 == Keys(ps)[0];
      assert Keys(ps[1..]) == Keys(ps)[1..];
      SetParamAppends(ps[1..], key, value);
      assert ps == [ps[0]] + ps[1..];
    }
  }

  /** After `set(key, value)` the key reads `value` and every other key reads as before. */
  lemma {:induction false} SetParamLookup(ps: Params, key: string, value: string, other: string)
    ensures Lookup(SetParam(ps, key, value), key) == Some(value)
    ensures other != key ==> Lookup(SetParam(ps, key, value), other) == Lookup(ps, other)
  {
    if ps != [] && ps[0].0 != key {
      SetParamLookup(ps[1..], key, value, other);
    }
  }

  /** The parameters are exactly the six named keys, in the order they are
      set, with the string fields unchanged and `interval` in decimal. */
  lemma QueryParamsExact(q: PriceQueryParams)
    ensures QueryParams(q) == [
      ("provider", q.provider),
      ("interval", Decimal.IntToString(q.interval)),
      ("periodicity", q.periodicity),
      ("startDate", q.startDate),
      ("endDate", q.endDate),
      ("instrumentId", q.instrumentId)]
  {
    var p1 := SetParam([], Provider.Key(), q.provider);
    SetParamAppends(p1, Interval.Key(), Decimal.IntToString(q.interval));
    var p2 := p1 + [(Interval.Key(), Decimal.IntToString(q.interval))];
    SetParamAppends(p2, Periodicity.Key(), q.periodicity);
    var p3 := p2 + [(Periodicity.Key(), q.periodicity)];
    SetParamAppends(p3, StartDate.Key(), q.startDate);
    var p4 := p3 + [(StartDate.Key(), q.startDate)];
    SetParamAppends(p4, EndDate.Key(), q.endDate);
    var p5 := p4 + [(EndDate.Key(), q.endDate)];
    SetParamAppends(p5, InstrumentId.Key(), q.instrumentId);
  }

  /** Reading the parameters back gives the query itself: the strings pass
      through unchanged and `interval` parses back to the same integer. */
  lemma QueryRoundTrip(q: PriceQueryParams)
    ensures DecodeQuery(QueryParams(q)) == Some(q)
  {
    QueryParamsExact(q);
    Decimal.NumberRoundTrip(q.interval);
    var interval := Decimal.IntToString(q.interval);
    var tail5 := [("endDate", q.endDate), ("instrumentId", q.instrumentId)];
    var tail3 := [("periodicity", q.periodicity), ("startDate", q.startDate)] + tail5;
    var ps := [("provider", q.provider), ("interval", interval)] + tail3;
    assert QueryParams(q) == ps;
    assert Lookup(ps, "provider") == Some(q.provider);
    assert Lookup(ps, "interval") == Some(interval);
    assert Lookup(ps, "periodicity") == Lookup(tail3, "periodicity") == Some(q.periodicity);
    assert Lookup(ps, "startDate") == Lookup(tail3, "startDate") == Some(q.startDate);
    assert Lookup(ps, "endDate") == Lookup(tail3, "endDate") == Lookup(tail5, "endDate") == Some(q.endDate);
    assert Lookup(ps, "instrumentId") == Lookup(tail3, "instrumentId") == Lookup(tail5, "instrumentId") == Some(q.instrumentId);
  }

  /** A null or empty token gives "No token available" and no request;
      any other token gives a GET on the bars endpoint with header
      `"Bearer " + token` and the encoded query. */
  lemma BuildPriceRequestCharacterized(token: Option<string>, q: PriceQueryParams)
    ensures !IsTruthy(token) ==> BuildPriceRequest(token, q) == Failure(NoToken("No token available"))
    ensures IsTruthy(token) ==>
      && BuildPriceRequest(token, q).Success?
      && BuildPriceRequest(token, q).value.url == BaseUrl
      && BuildPriceRequest(token, q).value.authorization == "Bearer " + token.value
      && DecodeQuery(BuildPriceRequest(token, q).value.params) == Some(q)
  {
    QueryRoundTrip(q);
  }

  /** Without a token no server is ever asked: the outcome is the same whatever the server would say. */
  lemma NoTokenNoRequest(token: Option<string>, q: PriceQueryParams,
                         server1: PriceRequest -> Result<PriceResponse, HttpError>,
                         server2: PriceRequest -> Result<PriceResponse, HttpError>)
    requires !IsTruthy(token)
    ensures GetPriceData(Success(token), q, server1) == GetPriceData(Success(token), q, server2)
    ensures GetPriceData(Success(token), q, server1) == Failure(NoToken(NoTokenMessage))
  {
  }

  /** With a token, the response is the server's answer to the built request,
      and an HTTP error comes out as that very error rather than as a value. */
  lemma GetPriceDataPropagates(token: string, q: PriceQueryParams,
                               server: PriceRequest -> Result<PriceResponse, HttpError>)
    requires token != ""
    ensures var request := PriceRequest(BaseUrl, "Bearer " + token, QueryParams(q));
      match server(request)
      case Success(response) => GetPriceData(Success(Some(token)), q, server) == Success(response)
      case Failure(e) => GetPriceData(Success(Some(token)), q, server) == Failure(Propagated(e))
  {
  }

  /** An error from `getToken` reaches the caller unchanged, and no server is asked. */
  lemma TokenErrorPropagates(e: HttpError, q: PriceQueryParams,
                             server: PriceRequest -> Result<PriceResponse, HttpError>)
    ensures GetPriceData(Failure(e), q, server) == Failure(Propagated(e))
  {
  }
}
