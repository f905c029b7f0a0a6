/**
  The retrying HTTP client (`utils/http.py`). The client's settings never
  change after construction, so it is a value. What the network does on each
  attempt of one request is given as an oracle `outcomes(k)`; the waits the
  client would sleep between attempts are recorded as a ghost trace.
*/
module Http {
  import opened Wrappers
  import opened Dicts
  import opened Values
  import opened Errors
  import Text

  datatype ResilientAsyncHTTPClient = ResilientAsyncHTTPClient(
    baseUrl: Option<string>,
    headers: Assoc<string>,
    timeout: Option<real>,
    retries: nat,
    backoffFactor: real)

  /**
    The constructor: `headers` defaults to {} when None or empty, and negative
    `retries` and `backoff_factor` are clamped to 0.
  */
  function NewClient(baseUrl: Option<string>, headers: Option<Assoc<string>>, timeout: Option<real>,
                     retries: int, backoffFactor: real): (c: ResilientAsyncHTTPClient)
    ensures c.baseUrl == baseUrl && c.timeout == timeout
    ensures c.headers == if headers.Some? then headers.value else []
    ensures c.retries >= 0 && c.retries >= retries && (retries >= 0 ==> c.retries == retries)
    ensures c.backoffFactor >= 0.0 && c.backoffFactor >= backoffFactor
    ensures backoffFactor >= 0.0 ==> c.backoffFactor == backoffFactor
  {
    ResilientAsyncHTTPClient(
      baseUrl,
      if headers.Some? && headers.value != [] then headers.value else [],
      timeout,
      if retries < 0 then 0 else retries,
      if backoffFactor < 0.0 then 0.0 else backoffFactor)
  }

  /** What one attempt of a request ends in. */
  datatype Attempt =
    | /** A response arrived: its status, reason phrase, the text of the status
          error httpx would raise, the body text, and the body parsed as JSON
          (or the parser's error message). */
      Received(status: int, reason: string, statusErrorText: string, text: string, json: Result<Value, string>)
    | /** A connection error or a timeout (`httpx.RequestError`, `httpx.TimeoutException`). */
      Transient(cause: string)
    | /** Any other exception while sending the request. */
      Broken(cause: string)

  predicate IsSuccess(status: int) {
    200 <= status < 300
  }

  /** `_extract_error_detail`: the response body when it is non-empty, else the status error's text. */
  function ExtractErrorDetail(statusErrorText: string, text: string): (d: string)
    ensures text != "" ==> d == text
    ensures text == "" ==> d == statusErrorText
  {
    if text != "" then text else statusErrorText
  }

  function StatusMessage(status: int, reason: string, detail: string): string {
    "API request failed: " + Text.IntToString(status) + " " + reason + ". Details: " + detail
  }

  function UnexpectedMessage(cause: string): string {
    "Unexpected HTTP error: " + cause
  }

  function ExhaustedMessage(retries: nat, last: string): string {
    "Request failed after " + Text.NatToString(retries + 1) + " attempts: " + last
  }

  /** The result of an attempt that is not retried. */
  function Decide(a: Attempt): (r: Result<Value, Exc>)
    requires !a.Transient?
    ensures r.Err? ==> r.error.cls == ToolExecutionError
    ensures r.Ok? <==> a.Received? && IsSuccess(a.status) && a.json.Ok?
    ensures a.Received? && !IsSuccess(a.status) ==>
      Text.Contains(r.error.message, Text.IntToString(a.status) + " " + a.reason)
    ensures a.Broken? ==> r == Err(Exc(ToolExecutionError, UnexpectedMessage(a.cause)))
    ensures a.Received? && IsSuccess(a.status) && a.json.Err? ==>
      r == Err(Exc(ToolExecutionError, UnexpectedMessage(a.json.error)))
  {
    match a
    case Received(status, reason, statusErrorText, text, json) =>
      if !IsSuccess(status) then
        var code := Text.IntToString(status) + " " + reason;
        var detail := ". Details: " + ExtractErrorDetail(statusErrorText, text);
        Text.ContainsInfix("API request failed: ", code, detail);
        assert StatusMessage(status, reason, ExtractErrorDetail(statusErrorText, text))
            == "API request failed: " + code + detail;
        Err(Exc(ToolExecutionError, StatusMessage(status, reason, ExtractErrorDetail(statusErrorText, text))))
      else if json.Ok? then Ok(json.value)
      else Err(Exc(ToolExecutionError, UnexpectedMessage(json.error)))
    case Broken(cause) => Err(Exc(ToolExecutionError, UnexpectedMessage(cause)))
  }

  function Pow2(k: nat): (p: nat)
    ensures p > 0
  {
    if k == 0 then 1 else 2 * Pow2(k - 1)
  }

  /** The wait after failed attempt number `k` (counting from 0). */
  function Backoff(c: ResilientAsyncHTTPClient, k: nat): real {
    c.backoffFactor * (Pow2(k) as real)
  }

  /** The result of a request whose attempts `k`, `k + 1`, ... end as `outcomes` says. */
  function Run(c: ResilientAsyncHTTPClient, outcomes: nat -> Attempt, k: nat): (r: Result<Value, Exc>)
    requires k <= c.retries
    ensures r.Err? ==> r.error.cls == ToolExecutionError
    decreases c.retries - k
  {
    match outcomes(k)
    case Transient(cause) =>
      if k == c.retries then Err(Exc(ToolExecutionError, ExhaustedMessage(c.retries, cause)))
      else Run(c, outcomes, k + 1)
    case _ => Decide(outcomes(k))
  }

  /** The number of attempts made from attempt `k` on. */
  function Attempts(c: ResilientAsyncHTTPClient, outcomes: nat -> Attempt, k: nat): (n: nat)
    requires k <= c.retries
    ensures 1 <= n <= c.retries + 1 - k
    decreases c.retries - k
  {
    if outcomes(k).Transient? && k < c.retries then 1 + Attempts(c, outcomes, k + 1) else 1
  }

  /** The waits slept from attempt `k` on: none after the last attempt, and none of length 0. */
  function Sleeps(c: ResilientAsyncHTTPClient, outcomes: nat -> Attempt, k: nat): seq<real>
    requires k <= c.retries
    decreases c.retries - k
  {
    if outcomes(k).Transient? && k < c.retries then
      (if Backoff(c, k) != 0.0 then [Backoff(c, k)] else []) + Sleeps(c, outcomes, k + 1)
    else []
  }

  /**
    `request`: attempts the request up to `retries + 1` times, retrying only
    connection errors and timeouts, and waiting `backoff_factor * 2**k` after
    failed attempt `k` when another attempt follows.
  */
  method Request(c: ResilientAsyncHTTPClient, outcomes: nat -> Attempt)
    returns (r: Result<Value, Exc>, ghost sleeps: seq<real>, ghost attempts: nat)
    ensures r == Run(c, outcomes, 0)
    ensures attempts == Attempts(c, outcomes, 0) && attempts <= c.retries + 1
    ensures sleeps == Sleeps(c, outcomes, 0)
  {
    var attempt: nat := 0;
    var lastError: Option<string> := None;
    sleeps := [];
    attempts := 0;
    while attempt <= c.retries
      invariant attempt <= c.retries && attempts == attempt
      invariant Run(c, outcomes, attempt) == Run(c, outcomes, 0)
      invariant attempts + Attempts(c, outcomes, attempt) == Attempts(c, outcomes, 0)
      invariant sleeps + Sleeps(c, outcomes, attempt) == Sleeps(c, outcomes, 0)
      decreases c.retries - attempt
    {
      attempts := attempts + 1;
      var outcome := outcomes(attempt);
      if !outcome.Transient? {
        LastAttempt(c, outcomes, attempt);
        r := Settle(outcome);
        return;
      }
      lastError := Some(outcome.cause);
      if attempt == c.retries {
        LastAttempt(c, outcomes, attempt);
        break;
      }
      var sleepFor := Backoff(c, attempt);
      RetriedAttempt(c, outcomes, attempt);
      SleptBeforeRetry(c, outcomes, attempt, sleeps);
      if sleepFor != 0.0 {
        sleeps := sleeps + [sleepFor];
      }
      attempt := attempt + 1;
    }
    r := Err(Exc(ToolExecutionError, ExhaustedMessage(c.retries, lastError.GetOr(""))));
  }

  /** An attempt that is not retried: a success's parsed body, or the error it raises. */
  method Settle(outcome: Attempt) returns (r: Result<Value, Exc>)
    requires !outcome.Transient?
    ensures r == Decide(outcome)
  {
    match outcome {
      case Received(status, reason, statusErrorText, text, json) =>
        if !IsSuccess(status) {
          return Err(Exc(ToolExecutionError, StatusMessage(status, reason, ExtractErrorDetail(statusErrorText, text))));
        }
        if json.Err? {
          return Err(Exc(ToolExecutionError, UnexpectedMessage(json.error)));
        }
        return Ok(json.value);
      case Broken(cause) =>
        return Err(Exc(ToolExecutionError, UnexpectedMessage(cause)));
    }
  }

  /** The attempt that ends a request: its outcome decides, nothing is slept after it. */
  lemma {:induction false} LastAttempt(c: ResilientAsyncHTTPClient, outcomes: nat -> Attempt, k: nat)
    requires k <= c.retries && (!outcomes(k).Transient? || k == c.retries)
    ensures Attempts(c, outcomes, k) == 1 && Sleeps(c, outcomes, k) == []
    ensures outcomes(k).Transient? ==>
      Run(c, outcomes, k) == Err(Exc(ToolExecutionError, ExhaustedMessage(c.retries, outcomes(k).cause)))
    ensures !outcomes(k).Transient? ==> Run(c, outcomes, k) == Decide(outcomes(k))
  {
  }

  /** A transient failure before the last attempt: one more attempt, after its backoff unless that is 0. */
  lemma {:induction false} RetriedAttempt(c: ResilientAsyncHTTPClient, outcomes: nat -> Attempt, k: nat)
    requires k < c.retries && outcomes(k).Transient?
    ensures Run(c, outcomes, k) == Run(c, outcomes, k + 1)
    ensures Attempts(c, outcomes, k) == 1 + Attempts(c, outcomes, k + 1)
    ensures Sleeps(c, outcomes, k)
      == (if Backoff(c, k) != 0.0 then [Backoff(c, k)] else []) + Sleeps(c, outcomes, k + 1)
  {
  }

  /** The trace after a retried attempt: its wait, unless 0, then the waits of the attempts after it. */
  lemma {:induction false} SleptBeforeRetry(c: ResilientAsyncHTTPClient, outcomes: nat -> Attempt, k: nat, before: seq<real>)
    requires k < c.retries && outcomes(k).Transient?
    ensures (if Backoff(c, k) != 0.0 then before + [Backoff(c, k)] else before) + Sleeps(c, outcomes, k + 1)
      == before + Sleeps(c, outcomes, k)
  {
    RetriedAttempt(c, outcomes, k);
    var rest := Sleeps(c, outcomes, k + 1);
    if Backoff(c, k) != 0.0 {
      assert before + ([Backoff(c, k)] + rest) == (before + [Backoff(c, k)]) + rest;
    } else {
      assert [] + rest == rest;
    }
  }

  /** One call `request(verb, url, params=..., data=...)`; an absent keyword is an empty map. */
  datatype Call = Call(verb: string, url: string, params: Assoc<Value>, data: Assoc<Value>)

  /** What the network does on each attempt of each call a client makes. */
  type Network = (ResilientAsyncHTTPClient, Call) -> (nat -> Attempt)

  /** The result of one call through the client: the parsed body, or a ToolExecutionError. */
  function Send(net: Network, c: ResilientAsyncHTTPClient, call: Call): (r: Result<Value, Exc>)
    ensures r.Err? ==> r.error.cls == ToolExecutionError
  {
    Run(c, net(c, call), 0)
  }

  /** The waits before attempts `k + 1` .. `n`, those of length 0 left out. */
  function Backoffs(c: ResilientAsyncHTTPClient, k: nat, n: nat): seq<real>
    requires k <= n
    decreases n - k
  {
    if k == n then [] else (if c.backoffFactor != 0.0 then [Backoff(c, k)] else []) + Backoffs(c, k + 1, n)
  }

  /** The waits are exactly `backoff_factor * 2**k` for k = 0 .. n-1, or none when the factor is 0. */
  lemma {:induction false} BackoffsClosedForm(c: ResilientAsyncHTTPClient, k: nat, n: nat)
    requires k <= n
    ensures c.backoffFactor == 0.0 ==> Backoffs(c, k, n) == []
    ensures c.backoffFactor != 0.0 ==>
      |Backoffs(c, k, n)| == n - k && forall i :: 0 <= i < n - k ==> Backoffs(c, k, n)[i] == c.backoffFactor * (Pow2(k + i) as real)
    decreases n - k
  {
    if k < n {
      BackoffsClosedForm(c, k + 1, n);
    }
  }

  /**
    When attempts `k` .. `n - 1` fail transiently and attempt `n` (within the
    retry budget) does not, the request ends as attempt `n` decides, after
    `n - k + 1` attempts and the waits `Backoffs(c, k, n)`.
  */
  lemma {:induction false} FirstDecisiveFrom(c: ResilientAsyncHTTPClient, outcomes: nat -> Attempt, k: nat, n: nat)
    requires k <= n <= c.retries
    requires forall j :: k <= j < n ==> outcomes(j).Transient?
    requires !outcomes(n).Transient?
    ensures Run(c, outcomes, k) == Decide(outcomes(n))
    ensures Attempts(c, outcomes, k) == n - k + 1
    ensures Sleeps(c, outcomes, k) == Backoffs(c, k, n)
    decreases n - k
  {
    if k < n {
      FirstDecisiveFrom(c, outcomes, k + 1, n);
      RetriedAttempt(c, outcomes, k);
      assert Backoff(c, k) != 0.0 <==> c.backoffFactor != 0.0;
    } else {
      LastAttempt(c, outcomes, k);
    }
  }

  /** The same, counted from the first attempt. */
  lemma {:induction false} FirstDecisive(c: ResilientAsyncHTTPClient, outcomes: nat -> Attempt, n: nat)
    requires n <= c.retries
    requires forall j :: 0 <= j < n ==> outcomes(j).Transient?
    requires !outcomes(n).Transient?
    ensures Run(c, outcomes, 0) == Decide(outcomes(n))
    ensures Attempts(c, outcomes, 0) == n + 1
    ensures Sleeps(c, outcomes, 0) == Backoffs(c, 0, n)
  {
    FirstDecisiveFrom(c, outcomes, 0, n);
  }

  /** `n` transient failures followed by a 2xx response with a JSON body return that body. */
  lemma {:induction false} SuccessAfterTransients(c: ResilientAsyncHTTPClient, outcomes: nat -> Attempt, n: nat, v: Value)
    requires n <= c.retries
    requires forall j :: 0 <= j < n ==> outcomes(j).Transient?
    requires outcomes(n).Received? && IsSuccess(outcomes(n).status) && outcomes(n).json == Ok(v)
    ensures Run(c, outcomes, 0) == Ok(v)
  {
    FirstDecisive(c, outcomes, n);
  }

  /** A status error on the first attempt ends the request at once, naming the status and reason. */
  lemma {:induction false} StatusErrorNotRetried(c: ResilientAsyncHTTPClient, outcomes: nat -> Attempt)
    requires outcomes(0).Received? && !IsSuccess(outcomes(0).status)
    ensures Attempts(c, outcomes, 0) == 1 && Sleeps(c, outcomes, 0) == []
    ensures Run(c, outcomes, 0).Err?
    ensures Text.Contains(Run(c, outcomes, 0).error.message,
                          Text.IntToString(outcomes(0).status) + " " + outcomes(0).reason)
  {
    FirstDecisive(c, outcomes, 0);
  }

  /**
    Any other failure on the first attempt (an unexpected exception, or a 2xx
    body that is not JSON) ends the request at once with the catch-all message.
  */
  lemma {:induction false} UnexpectedNotRetried(c: ResilientAsyncHTTPClient, outcomes: nat -> Attempt)
    requires outcomes(0).Broken? || (outcomes(0).Received? && IsSuccess(outcomes(0).status) && outcomes(0).json.Err?)
    ensures Attempts(c, outcomes, 0) == 1 && Sleeps(c, outcomes, 0) == []
    ensures outcomes(0).Broken? ==>
      Run(c, outcomes, 0) == Err(Exc(ToolExecutionError, UnexpectedMessage(outcomes(0).cause)))
    ensures outcomes(0).Received? ==>
      Run(c, outcomes, 0) == Err(Exc(ToolExecutionError, UnexpectedMessage(outcomes(0).json.error)))
  {
    FirstDecisive(c, outcomes, 0);
  }

  /**
    When every attempt fails transiently, the request makes `retries + 1`
    attempts, waits between each two, and reports the attempt count and the
    last error.
  */
  lemma {:induction false} AllTransientFrom(c: ResilientAsyncHTTPClient, outcomes: nat -> Attempt, k: nat)
    requires k <= c.retries
    requires forall j :: k <= j <= c.retries ==> outcomes(j).Transient?
    ensures Run(c, outcomes, k) == Err(Exc(ToolExecutionError, ExhaustedMessage(c.retries, outcomes(c.retries).cause)))
    ensures Attempts(c, outcomes, k) == c.retries + 1 - k
    ensures Sleeps(c, outcomes, k) == Backoffs(c, k, c.retries)
    decreases c.retries - k
  {
    if k < c.retries {
      AllTransientFrom(c, outcomes, k + 1);
      assert Backoff(c, k) != 0.0 <==> c.backoffFactor != 0.0;
    }
  }

  lemma {:induction false} AllTransient(c: ResilientAsyncHTTPClient, outcomes: nat -> Attempt)
    requires forall j :: 0 <= j <= c.retries ==> outcomes(j).Transient?
    ensures Run(c, outcomes, 0) == Err(Exc(ToolExecutionError, ExhaustedMessage(c.retries, outcomes(c.retries).cause)))
    ensures Attempts(c, outcomes, 0) == c.retries + 1
    ensures Sleeps(c, outcomes, 0) == Backoffs(c, 0, c.retries)
  {
    AllTransientFrom(c, outcomes, 0);
  }
}
