/**
 * The HTTP client every service goes through: it builds the request, turns
 * each transport result into a `{data, error}` outcome, and retries GET
 * requests whose error message names the server or the connection, waiting
 * 2^k seconds before retry k + 1. What `fetch` returns for each attempt is an
 * input (`attempt(k)` is the result of attempt number k, counting from 0).
 */
module ApiClient {
  import opened Wrappers
  import opened Js
  import opened Text

  const DefaultTimeout := 30000
  const DefaultMaxRetries := 2

  datatype Client = Client(baseURL: string, defaultHeaders: map<string, string>, timeout: int, maxRetries: int)

  /** The constructor: `None` stands for an omitted (undefined) argument, which takes the default. */
  function NewClient(baseURL: string, defaultHeaders: Option<map<string, string>>,
                     timeout: Option<int>, maxRetries: Option<int>): (c: Client)
    ensures c.baseURL == baseURL
    ensures c.defaultHeaders == (if defaultHeaders.Some? then defaultHeaders.value else map[])
    ensures c.timeout == (if timeout.Some? then timeout.value else 30000)
    ensures c.maxRetries == (if maxRetries.Some? then maxRetries.value else 2)
  {
    Client(baseURL,
           if defaultHeaders.Some? then defaultHeaders.value else map[],
           if timeout.Some? then timeout.value else DefaultTimeout,
           if maxRetries.Some? then maxRetries.value else DefaultMaxRetries)
  }

  /** The client of the Harry Potter API. */
  function HpClient(): (c: Client)
    ensures c.defaultHeaders == map[] && c.timeout == 30000 && c.maxRetries == 2
  {
    NewClient("https://hp-api.onrender.com/api", None, None, None)
  }

  /** The client of the cat API; `apiKey` is the build-time environment variable, if set. */
  function CatClient(apiKey: Option<string>): (c: Client)
    ensures c.defaultHeaders.Keys == {"x-api-key"}
    ensures c.defaultHeaders["x-api-key"] == (if apiKey.Some? then apiKey.value else "")
    ensures c.timeout == 30000 && c.maxRetries == 2
  {
    var key := if apiKey.Some? && apiKey.value != "" then apiKey.value else "";
    NewClient("https://api.thecatapi.com/v1", Some(map["x-api-key" := key]), None, None)
  }

  /** The `fetch` call a request makes. */
  datatype RequestInit = RequestInit(url: string, verb: string, mode: string, cache: string,
                                     headers: map<string, string>, body: Option<Value>)

  /** The request for `endpoint`: defaults merged with the call's headers, the call's winning. */
  function Config(c: Client, endpoint: string, verb: string, headers: map<string, string>,
                  body: Option<Value>): (r: RequestInit)
    ensures StartsWith(r.url, c.baseURL) && r.url[|c.baseURL|..] == endpoint
    ensures r.verb == verb && r.mode == "cors" && r.cache == "no-cache" && r.body == body
    ensures forall k :: k in r.headers <==> k in c.defaultHeaders || k in headers
    ensures forall k :: k in headers ==> r.headers[k] == headers[k]
    ensures forall k :: k in c.defaultHeaders && k !in headers ==> r.headers[k] == c.defaultHeaders[k]
  {
    RequestInit(c.baseURL + endpoint, verb, "cors", "no-cache", c.defaultHeaders + headers, body)
  }

  /** How the caller's signal stands relative to the request. */
  datatype Signal = NoSignal | AbortedBefore | AbortedDuring | NeverAborted

  /**
   * Whether the request's own controller is aborted: by the timeout, or by an
   * `abort` event of the caller's signal. A signal that was already aborted
   * when the request started fires no further event, so it is not forwarded.
   */
  predicate TransportAborted(signal: Signal, timedOut: bool)
  {
    timedOut || signal == AbortedDuring
  }

  /** What reading the body as JSON gave. */
  datatype BodyRead = Parsed(value: Value) | ReadFailed(name: string, message: string)

  /** What one call of `fetch` gave: a rejection (an error's name and message) or a response. */
  datatype Attempt =
    | Rejected(name: string, message: string)
    | Responded(status: int, statusText: string, body: BodyRead)

  /** The `{data, error}` result; `None` is `error: null`. */
  datatype Outcome = Outcome(data: Value, error: Option<string>)

  const CancelMessage := "La petición fue cancelada " + "o excedió el tiempo límite"
  const NetworkMessage := "Sin conexión a internet. " + "Por favor, verifica tu conexión."
  const UnknownMessage := "Error desconocido"

  function ClientErrorMessage(status: nat, statusText: string): string
  {
    "Error del cliente " + NatToString(status) + ": " + statusText
  }

  function ServerErrorMessage(status: nat, statusText: string): string
  {
    "Error del servidor " + NatToString(status) + ": " + statusText
  }

  /** The outcome of a caught error; `http` tells an `HTTPError` apart. */
  function Caught(name: string, message: string, http: bool): (r: Outcome)
    ensures r.data == Null && r.error.Some?
    ensures !http ==> r.error.value != ""
    ensures name == "AbortError" ==> r.error == Some(CancelMessage)
    ensures name != "AbortError" && name == "TypeError" && Contains(message, "fetch") ==>
              r.error == Some(NetworkMessage)
    ensures name != "AbortError" && !(name == "TypeError" && Contains(message, "fetch")) ==>
              r.error == Some(if message != "" || http then message else UnknownMessage)
  {
    if name == "AbortError" then Outcome(Null, Some(CancelMessage))
    else if name == "TypeError" && Contains(message, "fetch") then Outcome(Null, Some(NetworkMessage))
    else if http then Outcome(Null, Some(message))
    else Outcome(Null, Some(if message != "" then message else UnknownMessage))
  }

  predicate Ok(status: int)
  {
    200 <= status <= 299
  }

  /**
   * The message of the `TypeError` that `json()` rejects with when `text()`
   * has already read the body (the exact wording belongs to the engine).
   */
  const ConsumedMessage := "body stream already read"

  /**
   * What `json()` gives for a response that is not ok: `text()` has read
   * the body first, so a body that would have parsed (`Parsed`) is already
   * used and the read rejects with a `TypeError`; a read that fails anyway
   * (an empty body's `SyntaxError`) keeps its own error.
   */
  function ReadAfterText(body: BodyRead): (r: BodyRead)
    ensures r.ReadFailed?
    ensures body.Parsed? ==> r == ReadFailed("TypeError", ConsumedMessage)
    ensures body.ReadFailed? ==> r == body
  {
    match body
    case Parsed(_) => ReadFailed("TypeError", ConsumedMessage)
    case ReadFailed(_, _) => body
  }

  /** `request`: classify one transport result. */
  function Classify(a: Attempt): (r: Outcome)
    ensures a.Responded? && Ok(a.status) && a.body.Parsed? ==> r == Outcome(a.body.value, None)
    ensures a.Responded? && 400 <= a.status < 500 ==>
              r == Outcome(Null, Some(ClientErrorMessage(a.status, a.statusText)))
    ensures a.Responded? && 500 <= a.status ==>
              r == Outcome(Null, Some(ServerErrorMessage(a.status, a.statusText)))
    ensures a.Responded? && !Ok(a.status) && a.status < 400 ==>
              r == Caught(ReadAfterText(a.body).name, ReadAfterText(a.body).message, false)
    ensures r.error.None? <==> a.Responded? && Ok(a.status) && a.body.Parsed?
    ensures r.error.None? ==> r.data == a.body.value
    ensures r.error.Some? ==> r.data == Null
  {
    match a
    case Rejected(name, message) => Caught(name, message, false)
    case Responded(status, statusText, body) =>
      if !Ok(status) && 400 <= status < 500 then
        Caught("HTTPError", ClientErrorMessage(status, statusText), true)
      else if !Ok(status) && 500 <= status then
        Caught("HTTPError", ServerErrorMessage(status, statusText), true)
      else
        var read := if Ok(status) then body else ReadAfterText(body);
        match read
        case Parsed(v) => Outcome(v, None)
        case ReadFailed(name, message) => Caught(name, message, false)
  }

  /**
   * A response that is not ok and below 400 (a redirect or a 304) never
   * succeeds: the body it had is already read, so the error is the engine's
   * `TypeError`, which `get` does not retry.
   */
  lemma NotOkBelow400Fails(status: int, statusText: string, body: BodyRead)
    requires !Ok(status) && status < 400
    ensures Classify(Responded(status, statusText, body)).error.Some?
    ensures body.Parsed? ==> Classify(Responded(status, statusText, body)) == Outcome(Null, Some(ConsumedMessage))
    ensures body.Parsed? ==> !Retryable(Classify(Responded(status, statusText, body)))
  {
    if body.Parsed? {
      assert 'f' !in ConsumedMessage && 'v' !in ConsumedMessage && 'x' !in ConsumedMessage;
      MissingChar(ConsumedMessage, "fetch", 0);
      MissingChar(ConsumedMessage, "servidor", 3);
      MissingChar(ConsumedMessage, "conexión", 4);
    }
  }

  /** The error messages that make `get` try again. */
  predicate Retryable(o: Outcome)
  {
    o.error.Some? && o.error.value != "" &&
    (Contains(o.error.value, "servidor") || Contains(o.error.value, "conexión"))
  }

  /** A cancelled or timed-out request is never retried. */
  lemma CancelNotRetryable(message: string)
    ensures !Retryable(Classify(Rejected("AbortError", message)))
  {
    CancelLacksServer();
    CancelLacksConnection();
  }

  lemma CancelLacksServer()
    ensures !Contains(CancelMessage, "servidor")
  {
    var a, b := "La petición fue cancelada ", "o excedió el tiempo límite";
    assert 'v' !in a && 'v' !in b;
    assert 'v' !in a + b;
    MissingChar(CancelMessage, "servidor", 3);
  }

  lemma CancelLacksConnection()
    ensures !Contains(CancelMessage, "conexión")
  {
    var a, b := "La petición fue cancelada o e", "cedió el tiempo límite";
    assert CancelMessage == a + ['x'] + b;
    assert 'x' !in a && 'x' !in b;
    assert (a + ['x'] + b)[25] == ' ' != "conexión"[0];
    AnchoredAbsent(a, 'x', b, "conexión", 4);
  }

  /**
   * What one attempt gives once the abort wiring is taken into account: an
   * aborted controller makes `fetch` reject with an `AbortError`; otherwise
   * the attempt is what the network gave.
   */
  function Transport(signal: Signal, timedOut: bool, fetched: Attempt): (r: Attempt)
    ensures TransportAborted(signal, timedOut) ==> r.Rejected? && r.name == "AbortError"
    ensures !TransportAborted(signal, timedOut) ==> r == fetched
  {
    if TransportAborted(signal, timedOut) then Rejected("AbortError", "The operation was aborted.")
    else fetched
  }

  /** A signal aborted before the call is not forwarded: the request goes through as if there were none. */
  lemma PreAbortedSignalIgnored(fetched: Attempt)
    ensures Classify(Transport(AbortedBefore, false, fetched)) == Classify(fetched)
    ensures Classify(Transport(AbortedBefore, false, fetched)) == Classify(Transport(NoSignal, false, fetched))
  {
  }

  /** A timeout, or a caller abort during the call, gives the cancel message, which is not retried. */
  lemma AbortedTransportCancels(signal: Signal, timedOut: bool, fetched: Attempt)
    requires TransportAborted(signal, timedOut)
    ensures Classify(Transport(signal, timedOut, fetched)) == Outcome(Null, Some(CancelMessage))
    ensures !Retryable(Classify(Transport(signal, timedOut, fetched)))
  {
    CancelNotRetryable(Transport(signal, timedOut, fetched).message);
  }

  /** Every attempt of one `get` under the same caller signal, none of them timing out. */
  function Through(signal: Signal, fetched: nat -> Attempt): nat -> Attempt
  {
    (k: nat) => Transport(signal, false, fetched(k))
  }

  /** `get` with a caller signal aborted before the call behaves exactly as `get` without one. */
  lemma {:induction false} PreAbortedGetFrom(c: Client, retryCount: nat, fetched: nat -> Attempt)
    ensures GetFrom(c, retryCount, Through(AbortedBefore, fetched)) == GetFrom(c, retryCount, fetched)
    ensures AttemptsFrom(c, retryCount, Through(AbortedBefore, fetched)) == AttemptsFrom(c, retryCount, fetched)
    decreases if retryCount < c.maxRetries then c.maxRetries - retryCount else 0
  {
    assert Through(AbortedBefore, fetched)(retryCount) == fetched(retryCount);
    if retryCount < c.maxRetries {
      PreAbortedGetFrom(c, retryCount + 1, fetched);
    }
  }

  /** `get` whose caller aborts during the first attempt sends one request and reports the cancellation. */
  lemma AbortedDuringGet(c: Client, fetched: nat -> Attempt)
    ensures GetFrom(c, 0, Through(AbortedDuring, fetched)) == Outcome(Null, Some(CancelMessage))
    ensures AttemptsFrom(c, 0, Through(AbortedDuring, fetched)) == 1
  {
    AbortedTransportCancels(AbortedDuring, false, fetched(0));
  }

  /** A request that could not reach the network is retried. */
  lemma NetworkErrorRetryable(message: string)
    requires Contains(message, "fetch")
    ensures Retryable(Classify(Rejected("TypeError", message)))
  {
    var left := "Sin conexión a internet. ";
    assert OccursAt(left, "conexión", 4);
    ContainsAt(left, "conexión", 4);
    ContainsLeft(left, "Por favor, verifica tu conexión.", "conexión");
  }

  /** Every 5xx response is retried. */
  lemma ServerErrorRetryable(status: int, statusText: string, body: BodyRead)
    requires 500 <= status
    ensures Retryable(Classify(Responded(status, statusText, body)))
  {
    var left := "Error del servidor ";
    assert OccursAt(left, "servidor", 10);
    ContainsAt(left, "servidor", 10);
    ContainsLeft(left, NatToString(status) + ": " + statusText, "servidor");
    assert ServerErrorMessage(status, statusText) == left + (NatToString(status) + ": " + statusText);
  }

  /** A 4xx response is retried exactly when its status text names the server or the connection. */
  lemma ClientErrorRetryableIff(status: int, statusText: string, body: BodyRead)
    requires 400 <= status < 500
    ensures Retryable(Classify(Responded(status, statusText, body))) <==>
              Contains(statusText, "servidor") || Contains(statusText, "conexión")
  {
    var p := "Error del cliente " + NatToString(status) + ": ";
    assert ClientErrorMessage(status, statusText) == p + statusText;
    assert 's' !in "Error del cliente " && 'x' !in "Error del cliente ";
    DigitsLack(status, 's');
    DigitsLack(status, 'x');
    assert 's' !in p && 'x' !in p;
    assert p[|p| - 1] == ' ';
    ContainsAfterSpacedPrefix(p, statusText, "servidor", 0);
    ContainsAfterSpacedPrefix(p, statusText, "conexión", 4);
  }

  function Pow2(k: nat): nat
  {
    if k == 0 then 1 else 2 * Pow2(k - 1)
  }

  /** The wait, in milliseconds, before retry number `retryCount + 1`. */
  function Backoff(retryCount: nat): nat
  {
    Pow2(retryCount) * 1000
  }

  /** The first wait is one second and each further wait doubles the previous one. */
  lemma {:induction false} BackoffDoubles(k: nat)
    ensures Backoff(0) == 1000
    ensures Backoff(k + 1) == 2 * Backoff(k)
  {
    assert Pow2(k + 1) == 2 * Pow2(k);
  }

  /** The largest number of requests one `get` can make. */
  function MaxAttempts(c: Client): nat
  {
    if c.maxRetries > 0 then c.maxRetries + 1 else 1
  }

  /** `get(endpoint, headers, signal, retryCount)`: the outcome of the recursion. */
  function GetFrom(c: Client, retryCount: nat, attempt: nat -> Attempt): (r: Outcome)
    ensures r.error.Some? ==> r.data == Null
    ensures Retryable(r) ==> r == Classify(attempt(if retryCount < c.maxRetries then c.maxRetries else retryCount))
    decreases if retryCount < c.maxRetries then c.maxRetries - retryCount else 0
  {
    var o := Classify(attempt(retryCount));
    if Retryable(o) && retryCount < c.maxRetries then GetFrom(c, retryCount + 1, attempt) else o
  }

  /** The number of requests the same call makes. */
  function AttemptsFrom(c: Client, retryCount: nat, attempt: nat -> Attempt): (n: nat)
    ensures 1 <= n
    ensures retryCount < c.maxRetries ==> n <= c.maxRetries - retryCount + 1
    ensures retryCount >= c.maxRetries ==> n == 1
    decreases if retryCount < c.maxRetries then c.maxRetries - retryCount else 0
  {
    var o := Classify(attempt(retryCount));
    if Retryable(o) && retryCount < c.maxRetries then 1 + AttemptsFrom(c, retryCount + 1, attempt) else 1
  }

  /** The request each GET attempt sends. */
  function GetInit(c: Client, endpoint: string, headers: map<string, string>): (r: RequestInit)
    ensures r.verb == "GET" && r.body == None
  {
    Config(c, endpoint, "GET", headers, None)
  }

  /**
   * `get`: send, classify, and while the error names the server or the
   * connection and retries remain, wait and send again. Returns the last
   * outcome, every request sent and every wait.
   */
  method Get(c: Client, endpoint: string, headers: map<string, string>, attempt: nat -> Attempt)
    returns (result: Outcome, requests: seq<RequestInit>, delays: seq<nat>)
    ensures result == GetFrom(c, 0, attempt)
    ensures |requests| == AttemptsFrom(c, 0, attempt) <= MaxAttempts(c)
    ensures forall i :: 0 <= i < |requests| ==> requests[i] == GetInit(c, endpoint, headers)
    ensures |delays| == |requests| - 1
    ensures forall i :: 0 <= i < |delays| ==> delays[i] == Backoff(i)
    ensures |delays| > 0 ==> delays[0] == 1000
    ensures forall i :: 0 <= i < |delays| - 1 ==> delays[i + 1] == 2 * delays[i]
    ensures forall i :: 0 <= i < |requests| - 1 ==> Retryable(Classify(attempt(i)))
    ensures result == Classify(attempt(|requests| - 1))
  {
    var retryCount: nat := 0;
    requests := [GetInit(c, endpoint, headers)];
    delays := [];
    result := Classify(attempt(0));
    while Retryable(result) && retryCount < c.maxRetries
      invariant |requests| == retryCount + 1 && |delays| == retryCount
      invariant retryCount == 0 || retryCount <= c.maxRetries
      invariant forall i :: 0 <= i < |requests| ==> requests[i] == GetInit(c, endpoint, headers)
      invariant forall i :: 0 <= i < retryCount ==> delays[i] == Backoff(i)
      invariant forall i :: 0 <= i < retryCount ==> Retryable(Classify(attempt(i)))
      invariant result == Classify(attempt(retryCount))
      invariant GetFrom(c, retryCount, attempt) == GetFrom(c, 0, attempt)
      invariant retryCount + AttemptsFrom(c, retryCount, attempt) == AttemptsFrom(c, 0, attempt)
      decreases c.maxRetries - retryCount
    {
      delays := delays + [Backoff(retryCount)];
      retryCount := retryCount + 1;
      requests := requests + [GetInit(c, endpoint, headers)];
      result := Classify(attempt(retryCount));
    }
    BackoffDoubles(0);
    forall i | 0 <= i < |delays| - 1
      ensures delays[i + 1] == 2 * delays[i]
    {
      BackoffDoubles(i);
    }
  }

  /** An outcome that is not retried on the first attempt ends the call with one request. */
  lemma FirstOutcomeFinal(c: Client, attempt: nat -> Attempt)
    requires !Retryable(Classify(attempt(0)))
    ensures AttemptsFrom(c, 0, attempt) == 1 && GetFrom(c, 0, attempt) == Classify(attempt(0))
  {
  }

  /** A 4xx whose status text names neither keyword is sent once. */
  lemma ClientErrorSentOnce(c: Client, attempt: nat -> Attempt)
    requires attempt(0).Responded? && 400 <= attempt(0).status < 500
    requires !Contains(attempt(0).statusText, "servidor") && !Contains(attempt(0).statusText, "conexión")
    ensures AttemptsFrom(c, 0, attempt) == 1
    ensures GetFrom(c, 0, attempt) == Outcome(Null, Some(ClientErrorMessage(attempt(0).status, attempt(0).statusText)))
  {
    ClientErrorRetryableIff(attempt(0).status, attempt(0).statusText, attempt(0).body);
  }

  /** A server that keeps failing is asked exactly `maxRetries + 1` times. */
  lemma {:induction false} ServerErrorsExhaustRetries(c: Client, retryCount: nat, attempt: nat -> Attempt)
    requires forall i :: attempt(i).Responded? && 500 <= attempt(i).status
    ensures retryCount < c.maxRetries ==> AttemptsFrom(c, retryCount, attempt) == c.maxRetries - retryCount + 1
    ensures GetFrom(c, retryCount, attempt) == Classify(attempt(if retryCount < c.maxRetries then c.maxRetries else retryCount))
    decreases if retryCount < c.maxRetries then c.maxRetries - retryCount else 0
  {
    var a := attempt(retryCount);
    ServerErrorRetryable(a.status, a.statusText, a.body);
    if retryCount < c.maxRetries {
      ServerErrorsExhaustRetries(c, retryCount + 1, attempt);
    }
  }

  /** Two server errors then a success: three requests, and the success is returned. */
  lemma TwoServerErrorsThenSuccess(c: Client, attempt: nat -> Attempt, v: Value)
    requires c.maxRetries == 2
    requires attempt(0).Responded? && attempt(0).status == 500
    requires attempt(1).Responded? && attempt(1).status == 500
    requires attempt(2) == Responded(200, "OK", Parsed(v))
    ensures AttemptsFrom(c, 0, attempt) == 3 && GetFrom(c, 0, attempt) == Outcome(v, None)
  {
    ServerErrorRetryable(500, attempt(0).statusText, attempt(0).body);
    ServerErrorRetryable(500, attempt(1).statusText, attempt(1).body);
    assert Classify(attempt(2)) == Outcome(v, None);
    assert GetFrom(c, 2, attempt) == Outcome(v, None) && AttemptsFrom(c, 2, attempt) == 1;
    assert GetFrom(c, 1, attempt) == Outcome(v, None) && AttemptsFrom(c, 1, attempt) == 2;
  }

  /** `post`'s request: one JSON request whose content type the caller's headers may override. */
  function PostInit(c: Client, endpoint: string, body: Value, headers: map<string, string>): (r: RequestInit)
    ensures r.verb == "POST" && r.body == Some(body)
    ensures StartsWith(r.url, c.baseURL) && r.url[|c.baseURL|..] == endpoint
    ensures "Content-Type" in r.headers
    ensures r.headers["Content-Type"] ==
              if "Content-Type" in headers then headers["Content-Type"] else "application/json"
    ensures forall k :: k in headers ==> k in r.headers && r.headers[k] == headers[k]
  {
    Config(c, endpoint, "POST", map["Content-Type" := "application/json"] + headers, Some(body))
  }

  /** `post`: one request, no retry. */
  method Post(c: Client, endpoint: string, body: Value, headers: map<string, string>, attempt: Attempt)
    returns (result: Outcome, request: RequestInit)
    ensures request == PostInit(c, endpoint, body, headers)
    ensures result == Classify(attempt)
  {
    request := PostInit(c, endpoint, body, headers);
    result := Classify(attempt);
  }
}
