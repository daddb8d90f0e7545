/** The credential cache: an access token and its absolute expiry in
    milliseconds, kept in the browser's session storage under two keys, plus
    the token subject's current value.  The clock is passed in as `now`; the
    identity exchange is an abstract result. */
module Auth {
  import opened Wrappers
  import opened Models
  import Decimal

  /** Session storage: string keys to string values. */
  type Storage = map<string, string>

  const AccessTokenKey: string := "access_token"
  const ExpirationTimeKey: string := "expiration_time"

  /** `sessionStorage.getItem(key)`. */
  function GetItem(storage: Storage, key: string): Option<string> {
    if key in storage then Some(storage[key]) else None
  }

  /** `now < Number(expiry)`; false when the expiry is not a number. */
  predicate ExpiresAfter(expiry: string, now: int) {
    match Decimal.ParseNumber(expiry)
    case Some(t) => now < t
    case None => false
  }

  /** `now >= Number(expiry)`; false when the expiry is not a number. */
  predicate ExpiredBy(expiry: string, now: int) {
    match Decimal.ParseNumber(expiry)
    case Some(t) => now >= t
    case None => false
  }

  /** The value the token subject starts with when the service is built at `now`. */
  function InitialToken(storage: Storage, now: int): Option<string> {
    var token := GetItem(storage, AccessTokenKey);
    var expiry := GetItem(storage, ExpirationTimeKey);
    if IsTruthy(token) && IsTruthy(expiry) && ExpiresAfter(expiry.value, now) then token else None
  }

  /** Whether `getToken` at `now` goes to the identity endpoint. */
  predicate NeedsRefresh(storage: Storage, now: int) {
    var expiry := GetItem(storage, ExpirationTimeKey);
    !IsTruthy(expiry) || ExpiredBy(expiry.value, now)
  }

  /** The absolute expiry, in milliseconds, of a token granted at `now` for `expiresIn` seconds. */
  function ExpirationTime(now: int, expiresIn: int): int {
    now + expiresIn * 1000
  }

  /** Storage after `_saveToken(token, expiresIn)` at `now`. */
  function StoreCredential(storage: Storage, token: string, expiresIn: int, now: int): (r: Storage)
    ensures forall k :: k != AccessTokenKey && k != ExpirationTimeKey ==> GetItem(r, k) == GetItem(storage, k)
  {
    storage[AccessTokenKey := token][ExpirationTimeKey := Decimal.IntToString(ExpirationTime(now, expiresIn))]
  }

  /** Storage after `_clearToken()`. */
  function ForgetCredential(storage: Storage): (r: Storage)
    ensures forall k :: k != AccessTokenKey && k != ExpirationTimeKey ==> GetItem(r, k) == GetItem(storage, k)
  {
    storage - {AccessTokenKey, ExpirationTimeKey}
  }

  /** What one `getToken()` call yields: the subject's current value without
      any exchange, the freshly granted token, or the exchange's error. */
  datatype TokenResult = Cached(value: Option<string>) | Refreshed(token: string) | Failed(error: HttpError)

  class AuthService {
    var storage: Storage
    /** The current value of the token subject. */
    var current: Option<string>

    /** Reads the persisted credential at `now`. */
    constructor (initial: Storage, now: int)
      ensures storage == initial && current == InitialToken(initial, now)
    {
      storage := initial;
      current := InitialToken(initial, now);
    }

    /** Persists a granted token; `now` is the clock reading taken inside. */
    method SaveToken(token: string, expiresIn: int, now: int)
      modifies this
      ensures storage == StoreCredential(old(storage), token, expiresIn, now)
      ensures current == Some(token)
    {
      var expirationTime := ExpirationTime(now, expiresIn);
      storage := storage[AccessTokenKey := token];
      storage := storage[ExpirationTimeKey := Decimal.IntToString(expirationTime)];
      current := Some(token);
    }

    method ClearToken()
      modifies this
      ensures storage == ForgetCredential(old(storage))
      ensures current == None
    {
      storage := storage - {AccessTokenKey};
      storage := storage - {ExpirationTimeKey};
      current := None;
    }

    /** Runs the exchange whose outcome is `exchange`; on success the token
        is saved with the clock reading `answeredAt`, on failure the stored
        credential is removed and the error passed on. */
    method RefreshToken(exchange: Result<AuthResponse, HttpError>, answeredAt: int) returns (r: TokenResult)
      modifies this
      ensures exchange.Success? ==>
        && r == Refreshed(exchange.value.accessToken)
        && storage == StoreCredential(old(storage), exchange.value.accessToken, exchange.value.expiresIn, answeredAt)
        && current == Some(exchange.value.accessToken)
      ensures exchange.Failure? ==>
        && r == Failed(exchange.error)
        && storage == ForgetCredential(old(storage))
        && current == None
    {
      match exchange
      case Success(response) =>
        SaveToken(response.accessToken, response.expiresIn, answeredAt);
        r := Refreshed(response.accessToken);
      case Failure(error) =>
        ClearToken();
        r := Failed(error);
    }

    /** `getToken()` at `now`.  `exchange` and `answeredAt` are the identity
        endpoint's outcome and the clock when it answers, used only if a
        refresh happens. */
    method GetToken(now: int, exchange: Result<AuthResponse, HttpError>, answeredAt: int) returns (r: TokenResult)
      modifies this
      ensures !NeedsRefresh(old(storage), now) ==>
        r == Cached(old(current)) && storage == old(storage) && current == old(current)
      ensures NeedsRefresh(old(storage), now) && exchange.Success? ==>
        && r == Refreshed(exchange.value.accessToken)
        && storage == StoreCredential(old(storage), exchange.value.accessToken, exchange.value.expiresIn, answeredAt)
        && current == Some(exchange.value.accessToken)
      ensures NeedsRefresh(old(storage), now) && exchange.Failure? ==>
        && r == Failed(exchange.error)
        && storage == ForgetCredential(old(storage))
        && current == None
    {
      if NeedsRefresh(storage, now) {
        r := RefreshToken(exchange, answeredAt);
      } else {
        r := Cached(current);
      }
    }
  }

  /** The initial token is the stored one exactly when both keys are present,
      the token is non-empty and `now` is strictly before the numeric expiry;
      otherwise it is null. */
  lemma InitialTokenCharacterized(storage: Storage, now: int)
    ensures InitialToken(storage, now).Some? <==>
      && AccessTokenKey in storage && storage[AccessTokenKey] != ""
      && ExpirationTimeKey in storage
      && Decimal.ParseNumber(storage[ExpirationTimeKey]).Some?
      && now < Decimal.ParseNumber(storage[ExpirationTimeKey]).value
    ensures InitialToken(storage, now).Some? ==> InitialToken(storage, now).value == storage[AccessTokenKey]
  {
  }

  /** `getToken` refreshes exactly when the expiry key is missing or empty, or
      `now` has reached the numeric expiry; an expiry equal to `now` counts
      as expired. */
  lemma NeedsRefreshCharacterized(storage: Storage, now: int)
    ensures NeedsRefresh(storage, now) <==>
      || ExpirationTimeKey !in storage
      || storage[ExpirationTimeKey] == ""
      || (Decimal.ParseNumber(storage[ExpirationTimeKey]).Some? &&
          now >= Decimal.ParseNumber(storage[ExpirationTimeKey]).value)
  {
  }

  /** A present expiry that is not a number never triggers a refresh, and
      the constructor starts such a store with a null token. */
  lemma NonNumericExpiryNeverRefreshes(storage: Storage, now: int)
    requires ExpirationTimeKey in storage && storage[ExpirationTimeKey] != ""
    requires Decimal.ParseNumber(storage[ExpirationTimeKey]).None?
    ensures !NeedsRefresh(storage, now)
    ensures InitialToken(storage, now) == None
  {
  }

  /** For an expiry written by `toString`, the construction test and the
      refresh test are exact complements at every instant: valid strictly
      before the expiry, refreshed from the expiry on. */
  lemma ExpiryBoundary(storage: Storage, now: int, expiry: int)
    requires ExpirationTimeKey in storage && storage[ExpirationTimeKey] == Decimal.IntToString(expiry)
    ensures NeedsRefresh(storage, now) <==> now >= expiry
    ensures InitialToken(storage, now).Some? <==>
      AccessTokenKey in storage && storage[AccessTokenKey] != "" && now < expiry
  {
    Decimal.NumberRoundTrip(expiry);
  }

  /** After saving a token granted at `savedAt` for `expiresIn` seconds, a
      `getToken` at `now` refreshes exactly when `now` has reached
      `savedAt + expiresIn * 1000`, and a reload at `now` restores the token
      exactly when it is non-empty and has not yet expired. */
  lemma SavedCredentialLifetime(storage: Storage, token: string, expiresIn: int, savedAt: int, now: int)
    ensures NeedsRefresh(StoreCredential(storage, token, expiresIn, savedAt), now) <==>
      now >= savedAt + expiresIn * 1000
    ensures InitialToken(StoreCredential(storage, token, expiresIn, savedAt), now) ==
      if token != "" && now < savedAt + expiresIn * 1000 then Some(token) else None
  {
    var saved := StoreCredential(storage, token, expiresIn, savedAt);
    ExpiryBoundary(saved, now, ExpirationTime(savedAt, expiresIn));
  }

  /** In particular a `getToken` at the very instant of saving, with a
      positive lifetime, answers from the cache. */
  lemma SavedCredentialNotRefreshedAtOnce(storage: Storage, token: string, expiresIn: int, now: int)
    requires expiresIn > 0
    ensures !NeedsRefresh(StoreCredential(storage, token, expiresIn, now), now)
  {
    SavedCredentialLifetime(storage, token, expiresIn, now, now);
  }

  /** After a failed refresh both keys are gone: the next `getToken`
      refreshes again and a reload starts with a null token. */
  lemma ForgottenCredentialRefreshes(storage: Storage, now: int)
    ensures AccessTokenKey !in ForgetCredential(storage) && ExpirationTimeKey !in ForgetCredential(storage)
    ensures NeedsRefresh(ForgetCredential(storage), now)
    ensures InitialToken(ForgetCredential(storage), now) == None
  {
  }

  /** A service started without a usable expiry refreshes on its first
      `getToken`; a second `getToken` at the same instant, with a positive
      lifetime granted, answers from the cache and does not consult the
      identity endpoint, whatever it would have said. */
  method RefreshThenCached(initial: Storage, now: int, granted: AuthResponse,
                           unused: Result<AuthResponse, HttpError>) returns (first: TokenResult, second: TokenResult)
    requires NeedsRefresh(initial, now)
    requires granted.expiresIn > 0
    ensures first == Refreshed(granted.accessToken)
    ensures second == Cached(Some(granted.accessToken))
  {
    var auth := new AuthService(initial, now);
    first := auth.GetToken(now, Success(granted), now);
    SavedCredentialNotRefreshedAtOnce(initial, granted.accessToken, granted.expiresIn, now);
    second := auth.GetToken(now, unused, now);
  }
}
