/**
 * The HTTP client utilities of the browser: the retry helper, the error-message
 * selection, and the two interceptors every request and failed response pass through.
 */
module Api {
  import opened Wrappers
  import opened BrowserStorage

  // ---------------------------------------------------------------------------
  // Thrown values
  // ---------------------------------------------------------------------------

  /** The JSON body of a failed response; a key it lacks is `None`. */
  datatype ErrorBody = ErrorBody(message: Option<string>, error: Option<string>)

  datatype ErrorResponse = ErrorResponse(status: int, data: Option<ErrorBody>)

  /** What a failed call can throw: an HTTP-client error, another `Error`, or any other value. */
  datatype Thrown =
    | HttpError(response: Option<ErrorResponse>, message: string)
    | PlainError(message: string)
    | OtherValue

  const UnknownErrorMessage := "An unknown error occurred"

  /** `error.response?.data?.message`, with every absent link read as "" (falsy). */
  function BodyMessage(e: Thrown): string
    requires e.HttpError?
  {
    if e.response.Some? && e.response.value.data.Some? then e.response.value.data.value.message.GetOr("") else ""
  }

  /** `error.response?.data?.error`, likewise. */
  function BodyError(e: Thrown): string
    requires e.HttpError?
  {
    if e.response.Some? && e.response.value.data.Some? then e.response.value.data.value.error.GetOr("") else ""
  }

  /** JavaScript `a || b` on strings. */
  function Or(a: string, b: string): string {
    if a != "" then a else b
  }

  /**
   * `getErrorMessage`: for an HTTP-client error the first non-empty of the body's
   * `message`, the body's `error` and the error's own message (that last one even
   * when empty); an `Error`'s message; otherwise a fixed text.
   */
  function GetErrorMessage(e: Thrown): (r: string)
    ensures e.HttpError? ==>
      var candidates := [BodyMessage(e), BodyError(e), e.message];
      exists k :: 0 <= k < 3 && r == candidates[k] && (k < 2 ==> r != "") &&
        forall j :: 0 <= j < k ==> candidates[j] == ""
    ensures e.PlainError? ==> r == e.message
    ensures e.OtherValue? ==> r == UnknownErrorMessage
  {
    match e
    case HttpError(_, msg) =>
      var candidates := [BodyMessage(e), BodyError(e), msg];
      var r := Or(BodyMessage(e), Or(BodyError(e), msg));
      assert r == candidates[if candidates[0] != "" then 0 else if candidates[1] != "" then 1 else 2];
      r
    case PlainError(msg) => msg
    case OtherValue => UnknownErrorMessage
  }

  // ---------------------------------------------------------------------------
  // withRetry
  // ---------------------------------------------------------------------------

  const DefaultMaxRetries := 3
  const DefaultBaseDelay := 1000

  function Pow2(k: nat): (r: nat)
    ensures r >= 1
  {
    if k == 0 then 1 else 2 * Pow2(k - 1)
  }

  function Max0(n: int): nat {
    if n < 0 then 0 else n
  }

  /** The index of the first successful attempt among attempts 0..n-1, if any. */
  function FirstSuccess<T>(attempt: nat -> Result<T, Thrown>, n: nat): (k: Option<nat>)
    ensures k.Some? ==> k.value < n && attempt(k.value).Ok?
    ensures k.Some? ==> forall j :: 0 <= j < k.value ==> attempt(j).Err?
    ensures k.None? ==> forall j :: 0 <= j < n ==> attempt(j).Err?
  {
    if n == 0 then None
    else match FirstSuccess(attempt, n - 1)
      case Some(k) => Some(k)
      case None => if attempt(n - 1).Ok? then Some(n - 1) else None
  }

  /** Once attempt `n` is the first success, it stays the first success however many attempts are allowed. */
  lemma {:induction false} FirstSuccessStable<T>(attempt: nat -> Result<T, Thrown>, n: nat, m: nat)
    requires FirstSuccess(attempt, n) == None && attempt(n).Ok? && n < m
    ensures FirstSuccess(attempt, m) == Some(n)
  {
    if m > n + 1 {
      FirstSuccessStable(attempt, n, m - 1);
    }
  }

  /**
   * `withRetry(fn, maxRetries, baseDelay)`. Call `k` of `fn` returns `attempt(k)`;
   * `calls` counts the calls made and `delays` lists the waits in order. The thrown
   * value on exhaustion is the last attempt's error, or `None` (`null`) when no
   * attempt was made.
   */
  method WithRetry<T>(attempt: nat -> Result<T, Thrown>, maxRetries: int, baseDelay: int)
    returns (r: Result<T, Option<Thrown>>, calls: nat, delays: seq<int>)
    ensures calls <= Max0(maxRetries)
    ensures forall k :: 0 <= k < |delays| ==> delays[k] == baseDelay * Pow2(k)
    ensures FirstSuccess(attempt, Max0(maxRetries)).Some? ==>
      var k := FirstSuccess(attempt, Max0(maxRetries)).value;
      r == Ok(attempt(k).value) && calls == k + 1 && |delays| == k
    ensures FirstSuccess(attempt, Max0(maxRetries)).None? ==>
      calls == Max0(maxRetries) && |delays| == Max0(maxRetries - 1) &&
      r == Err(if maxRetries <= 0 then None else Some(attempt(maxRetries - 1).error))
  {
    var lastError: Option<Thrown> := None;
    calls, delays := 0, [];
    var n := 0;
    while n < maxRetries
      invariant 0 <= n <= Max0(maxRetries)
      invariant calls == n
      invariant FirstSuccess(attempt, n) == None
      invariant |delays| == (if n < maxRetries then n else Max0(maxRetries - 1))
      invariant forall k :: 0 <= k < |delays| ==> delays[k] == baseDelay * Pow2(k)
      invariant lastError == (if n == 0 then None else Some(attempt(n - 1).error))
    {
      var outcome := attempt(n);
      calls := calls + 1;
      if outcome.Ok? {
        FirstSuccessStable(attempt, n, Max0(maxRetries));
        r := Ok(outcome.value);
        return;
      }
      lastError := Some(outcome.error);
      if n < maxRetries - 1 {
        delays := delays + [baseDelay * Pow2(n)];
      }
      n := n + 1;
    }
    r := Err(lastError);
  }

  // ---------------------------------------------------------------------------
  // Interceptors
  // ---------------------------------------------------------------------------

  const TokenKey := "access_token"
  const UserKey := "user"
  const AuthorizationHeader := "Authorization"
  const Unauthorized := 401

  /** A stored token is used only when it is present and non-empty. */
  predicate HasToken(items: map<string, string>) {
    TokenKey in items && items[TokenKey] != ""
  }

  /** The headers a request leaves the request interceptor with. */
  function WithBearer(items: map<string, string>, headers: map<string, string>): (h: map<string, string>)
    ensures HasToken(items) ==> AuthorizationHeader in h && h[AuthorizationHeader] == "Bearer " + items[TokenKey]
    ensures !HasToken(items) ==> h == headers
    ensures forall k :: k != AuthorizationHeader ==> (k in h <==> k in headers)
    ensures forall k :: k != AuthorizationHeader && k in h ==> h[k] == headers[k]
  {
    if HasToken(items) then headers[AuthorizationHeader := "Bearer " + items[TokenKey]] else headers
  }

  /** The storage a failed response leaves behind: a 401 drops the token and the user record. */
  function AfterFailedResponse(items: map<string, string>, status: Option<int>): (r: map<string, string>)
    ensures status == Some(Unauthorized) ==> r.Keys == items.Keys - {TokenKey, UserKey}
    ensures status != Some(Unauthorized) ==> r == items
    ensures forall k :: k in r ==> k in items && r[k] == items[k]
  {
    if status == Some(Unauthorized) then items - {TokenKey, UserKey} else items
  }

  /** The status of a failed response, `error.response?.status`. */
  function StatusOf(e: Thrown): Option<int> {
    if e.HttpError? && e.response.Some? then Some(e.response.value.status) else None
  }

  /** An outgoing request's configuration; its headers are updated in place. */
  class RequestConfig {
    var headers: map<string, string>

    constructor (headers: map<string, string>)
      ensures this.headers == headers
    {
      this.headers := headers;
    }
  }

  /** The request interceptor: attach `Bearer <token>` when a token is stored, and pass the config on. */
  method AttachToken(storage: LocalStorage, config: RequestConfig) returns (out: RequestConfig)
    modifies config
    ensures out == config
    ensures config.headers == WithBearer(storage.items, old(config.headers))
  {
    var token := storage.GetItem(TokenKey);
    if token.Some? && token.value != "" {
      config.headers := config.headers[AuthorizationHeader := "Bearer " + token.value];
    }
    out := config;
  }

  /** The response-error interceptor: on a 401 clear the stored credentials; always reject with the same error. */
  method RejectResponse(storage: LocalStorage, error: Thrown) returns (rejected: Thrown)
    modifies storage
    ensures rejected == error
    ensures storage.items == AfterFailedResponse(old(storage.items), StatusOf(error))
  {
    if StatusOf(error) == Some(Unauthorized) {
      storage.RemoveItem(TokenKey);
      storage.RemoveItem(UserKey);
    }
    rejected := error;
  }
}
