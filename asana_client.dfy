/** The HTTP client for the Asana REST API: the error classifier, the error
    it raises, and the bounded retry loop around each request. The transport
    is a sequence of responses, the i-th answering the i-th attempt; the
    client records every request it hands the transport and every pause it
    sleeps in two ghost logs. */
module Client {
  import opened Wrappers
  import opened Json
  import opened PyText
  import Config

  /** Statuses worth another attempt: rate limiting and transient server errors. */
  const RetryableStatuses: set<int> := {429, 500, 502, 503, 504}

  /** `_is_retryable`. */
  function IsRetryable(status: int): (r: bool)
    ensures r <==> status == 429 || (500 <= status <= 504 && status != 501)
  {
    status in RetryableStatuses
  }

  /** `AsanaError`: the status code, the message (also its str()), and the
      details, which are never None. */
  datatype AsanaError = AsanaError(statusCode: int, message: string, details: Value)

  /** `AsanaError(status_code, message, details)`: details that are None or
      empty (Python `details or {}`) become the empty map. */
  function NewAsanaError(statusCode: int, message: string, details: Value): (e: AsanaError)
    ensures e.statusCode == statusCode && e.message == message
    ensures e.details != Null
    ensures Truthy(details) ==> e.details == details
    ensures !Truthy(details) ==> e.details == Object(map[])
  {
    AsanaError(statusCode, message, Or(details, Object(map[])))
  }

  const ApiErrorMessage: string := "Asana API error"
  const ExhaustionMessage: string := "Asana API retry exhaustion"

  datatype Method = GET | POST | PUT | DELETE

  /** One request as the tools describe it: verb, path under the base URL,
      query parameters and JSON body (None when absent). */
  datatype HttpRequest = HttpRequest(
    verb: Method,
    path: string,
    params: Option<map<string, Value>>,
    payload: Option<Value>)

  /** What the transport answered: the status, the Retry-After header if
      present, the raw body text, and the body decoded as JSON (None when the
      text is not JSON). */
  datatype Response = Response(
    status: int,
    retryAfter: Option<string>,
    text: string,
    json: Option<Value>)

  /** Exceptions other than AsanaError that leave the request loop: the
      transport itself failing, a success body that is not JSON, and a
      Retry-After value float() cannot read. */
  datatype Unhandled = TransportError | JsonDecodeError | RetryAfterValueError

  /** How a request ends: with the decoded body, with an AsanaError, or with
      some other exception escaping. */
  datatype Outcome = Returned(body: Value) | Raised(error: AsanaError) | Escaped(exception: Unhandled)

  function Pow2(n: nat): (r: nat)
    ensures r >= 1
  {
    if n == 0 then 1 else 2 * Pow2(n - 1)
  }

  /** The pause after a retryable failure on attempt `attempt`: the
      Retry-After header when present and non-empty (in its delay-seconds
      form; any other text makes float() raise), and 2^attempt otherwise. */
  function RetryDelay(retryAfter: Option<string>, attempt: nat): (r: Result<nat, Unhandled>)
    ensures (retryAfter.None? || retryAfter.value == "") ==> r == Success(Pow2(attempt))
    ensures retryAfter.Some? && retryAfter.value != "" ==>
      match ParseDigits(retryAfter.value)
      case Some(d) => r == Success(d)
      case None => r == Failure(RetryAfterValueError)
  {
    if retryAfter.Some? && retryAfter.value != "" then
      match ParseDigits(retryAfter.value)
      case Some(d) => Success(d)
      case None => Failure(RetryAfterValueError)
    else
      Success(Pow2(attempt))
  }

  /** The details of an error response: its JSON body, or {"message": text}
      when the body is not JSON, a map that is never empty and so survives
      `details or {}`. */
  function ErrorBody(response: Response): (r: Value)
    ensures response.json.Some? ==> r == response.json.value
    ensures response.json.None? ==>
      r.Object? && r.fields.Keys == {"message"} && r.fields["message"] == Str(response.text) && Truthy(r)
  {
    if response.json.Some? then response.json.value else Object(map["message" := Str(response.text)])
  }

  /** What a request does, from attempt `attempt` on: its outcome, how many
      requests it hands the transport and the pauses it sleeps, in order. */
  datatype Trace = Trace(outcome: Outcome, calls: nat, delays: seq<nat>)

  /** The retry loop as a state machine over the attempt counter. */
  function Attempts(maxRetries: int, responses: seq<Response>, attempt: nat): Trace
    decreases if attempt <= maxRetries then maxRetries + 1 - attempt else 0
  {
    if attempt > maxRetries then
      Trace(Raised(NewAsanaError(500, ExhaustionMessage, Null)), 0, [])
    else if attempt >= |responses| then
      Trace(Escaped(TransportError), 1, [])
    else
      var response := responses[attempt];
      if response.status < 400 then
        Trace(if response.json.Some? then Returned(response.json.value) else Escaped(JsonDecodeError), 1, [])
      else if IsRetryable(response.status) && attempt < maxRetries then
        match RetryDelay(response.retryAfter, attempt)
        case Failure(e) => Trace(Escaped(e), 1, [])
        case Success(delay) =>
          var rest := Attempts(maxRetries, responses, attempt + 1);
          Trace(rest.outcome, 1 + rest.calls, [delay] + rest.delays)
      else
        Trace(Raised(NewAsanaError(response.status, ApiErrorMessage, ErrorBody(response))), 1, [])
  }

  /** A whole request. */
  function Execute(maxRetries: int, responses: seq<Response>): Trace {
    Attempts(maxRetries, responses, 0)
  }

  function Repeat(request: HttpRequest, n: nat): (r: seq<HttpRequest>)
    ensures |r| == n && forall i | 0 <= i < n :: r[i] == request
  {
    seq(n, _ => request)
  }

  /** From an attempt within the bound the loop makes at least one call and
      at most one per remaining attempt, and sleeps exactly once between
      consecutive calls. */
  lemma {:induction false} AttemptsBounded(maxRetries: int, responses: seq<Response>, attempt: nat)
    requires attempt <= maxRetries
    ensures var t := Attempts(maxRetries, responses, attempt);
      1 <= t.calls <= maxRetries + 1 - attempt && |t.delays| == t.calls - 1
    decreases maxRetries + 1 - attempt
  {
    if attempt < |responses| && responses[attempt].status >= 400
      && IsRetryable(responses[attempt].status) && attempt < maxRetries
      && RetryDelay(responses[attempt].retryAfter, attempt).Success?
    {
      AttemptsBounded(maxRetries, responses, attempt + 1);
    }
  }

  /** `request` issues between 1 and max_retries + 1 calls, and none at all
      when max_retries is negative. */
  lemma CallsBounded(maxRetries: int, responses: seq<Response>)
    ensures var t := Execute(maxRetries, responses);
      (maxRetries >= 0 ==> 1 <= t.calls <= maxRetries + 1 && |t.delays| == t.calls - 1) &&
      (maxRetries < 0 ==> t.calls == 0 && t.delays == [])
  {
    if maxRetries >= 0 {
      AttemptsBounded(maxRetries, responses, 0);
    }
  }

  /** A pause of d seconds after attempt k is what the loop does: the k-th
      response failed with a retryable status, attempt k still had retries
      left, and d is the Retry-After value or 2^k. */
  predicate PauseJustified(maxRetries: int, responses: seq<Response>, k: nat, d: nat) {
    k < |responses| && responses[k].status >= 400 && IsRetryable(responses[k].status) &&
    k < maxRetries && RetryDelay(responses[k].retryAfter, k) == Success(d)
  }

  /** Every pause the request sleeps, the i-th after attempt i, is justified. */
  lemma {:induction false} PausesFollowRetryableFailures(maxRetries: int, responses: seq<Response>, attempt: nat)
    ensures forall i | 0 <= i < |Attempts(maxRetries, responses, attempt).delays| ::
      PauseJustified(maxRetries, responses, attempt + i, Attempts(maxRetries, responses, attempt).delays[i])
    decreases if attempt <= maxRetries then maxRetries + 1 - attempt else 0
  {
    if attempt <= maxRetries && attempt < |responses| && responses[attempt].status >= 400
      && IsRetryable(responses[attempt].status) && attempt < maxRetries
      && RetryDelay(responses[attempt].retryAfter, attempt).Success?
    {
      PausesFollowRetryableFailures(maxRetries, responses, attempt + 1);
      var t := Attempts(maxRetries, responses, attempt);
      var rest := Attempts(maxRetries, responses, attempt + 1);
      assert t.delays == [RetryDelay(responses[attempt].retryAfter, attempt).value] + rest.delays;
      forall i | 0 < i < |t.delays|
        ensures PauseJustified(maxRetries, responses, attempt + i, t.delays[i])
      {
        var j := i - 1;
        assert t.delays[i] == rest.delays[j];
        assert PauseJustified(maxRetries, responses, attempt + 1 + j, rest.delays[j]);
      }
    }
  }

  /** How the request ends is decided by the response to its last call,
      call number attempt + calls - 1: a body is returned only for a
      response below 400 carrying JSON, and it is that JSON; "Asana API
      error" is raised only for a status of 400 or more that is not
      retryable or came on the final attempt, with that status and that
      response's body as details; the transport fails only when it has no
      response left for that call; a body that is not JSON escapes only for
      a response below 400; an unreadable Retry-After escapes only for a
      retryable failure that still had attempts left. */
  lemma {:induction false} EndsAtLastCall(maxRetries: int, responses: seq<Response>, attempt: nat)
    requires attempt <= maxRetries
    ensures var t := Attempts(maxRetries, responses, attempt);
      var k := attempt + t.calls - 1;
      (t.outcome.Returned? ==>
        k < |responses| && responses[k].status < 400 && responses[k].json == Some(t.outcome.body)) &&
      (t.outcome.Raised? ==>
        k < |responses| && responses[k].status >= 400 &&
        (!IsRetryable(responses[k].status) || k == maxRetries) &&
        t.outcome.error == NewAsanaError(responses[k].status, ApiErrorMessage, ErrorBody(responses[k]))) &&
      (t.outcome == Escaped(TransportError) ==> k >= |responses|) &&
      (t.outcome == Escaped(JsonDecodeError) ==>
        k < |responses| && responses[k].status < 400 && responses[k].json.None?) &&
      (t.outcome == Escaped(RetryAfterValueError) ==>
        k < |responses| && responses[k].status >= 400 && IsRetryable(responses[k].status) &&
        k < maxRetries && RetryDelay(responses[k].retryAfter, k).Failure?)
    decreases maxRetries + 1 - attempt
  {
    if attempt < |responses| && responses[attempt].status >= 400
      && IsRetryable(responses[attempt].status) && attempt < maxRetries
      && RetryDelay(responses[attempt].retryAfter, attempt).Success?
    {
      EndsAtLastCall(maxRetries, responses, attempt + 1);
    }
  }

  /** The converse, for the whole request: the last call's response decides
      the outcome. Whatever answers the last call, the outcome is the one
      the loop's branches give that response. */
  lemma LastResponseDecides(maxRetries: int, responses: seq<Response>)
    requires maxRetries >= 0
    ensures var t := Execute(maxRetries, responses);
      var k := t.calls - 1;
      (k >= |responses| ==> t.outcome == Escaped(TransportError)) &&
      (k < |responses| && responses[k].status < 400 ==>
        t.outcome == (if responses[k].json.Some? then Returned(responses[k].json.value) else Escaped(JsonDecodeError))) &&
      (k < |responses| && responses[k].status >= 400 && (!IsRetryable(responses[k].status) || k == maxRetries) ==>
        t.outcome == Raised(NewAsanaError(responses[k].status, ApiErrorMessage, ErrorBody(responses[k]))))
  {
    EndsAtLastCall(maxRetries, responses, 0);
    var t := Execute(maxRetries, responses);
    match t.outcome {
      case Returned(_) =>
      case Raised(_) =>
      case Escaped(x) =>
        match x {
          case TransportError =>
          case JsonDecodeError =>
          case RetryAfterValueError =>
        }
    }
  }

  /** A response below 400 that follows only retryable failures with
      readable pauses, and comes within the retry bound, is returned as its
      JSON body after one call per attempt and one pause per failure. */
  lemma {:induction false} ReturnsFirstSuccess(maxRetries: int, responses: seq<Response>, attempt: nat, j: nat)
    requires attempt <= j <= maxRetries && j < |responses|
    requires forall i | attempt <= i < j ::
      responses[i].status >= 400 && IsRetryable(responses[i].status) && RetryDelay(responses[i].retryAfter, i).Success?
    requires responses[j].status < 400 && responses[j].json.Some?
    ensures var t := Attempts(maxRetries, responses, attempt);
      t.outcome == Returned(responses[j].json.value) && t.calls == j + 1 - attempt
    decreases j - attempt
  {
    if attempt < j {
      ReturnsFirstSuccess(maxRetries, responses, attempt + 1, j);
    }
  }

  /** A first response below 400 is returned at once: one call, no pause. */
  lemma SuccessShortCircuits(maxRetries: int, responses: seq<Response>)
    requires maxRetries >= 0 && |responses| > 0 && responses[0].status < 400
    requires responses[0].json.Some?
    ensures Execute(maxRetries, responses) == Trace(Returned(responses[0].json.value), 1, [])
  {
  }

  /** A 429 carrying "Retry-After: 5" pauses 5 seconds before the next attempt. */
  lemma RetryAfterHonoured(maxRetries: int, responses: seq<Response>)
    requires maxRetries >= 1 && |responses| > 0
    requires responses[0].status == 429 && responses[0].retryAfter == Some("5")
    ensures var t := Execute(maxRetries, responses);
      |t.delays| >= 1 && t.delays[0] == 5
  {
    assert ParseDigits("5") == Some(5);
  }

  /** A remote that always answers 503 without Retry-After, from attempt
      `attempt` on: one call per remaining attempt, pauses of 2^k for every
      attempt k but the last, then the error with status 503. */
  lemma {:induction false} UnavailableFrom(maxRetries: nat, responses: seq<Response>, attempt: nat)
    requires attempt <= maxRetries < |responses|
    requires forall i | 0 <= i < |responses| :: responses[i].status == 503 && responses[i].retryAfter.None?
    ensures var t := Attempts(maxRetries, responses, attempt);
      t.calls == maxRetries + 1 - attempt &&
      t.delays == seq(maxRetries - attempt, i requires 0 <= i < maxRetries - attempt => Pow2(attempt + i)) &&
      t.outcome.Raised? && t.outcome.error.statusCode == 503 && t.outcome.error.message == ApiErrorMessage
    decreases maxRetries - attempt
  {
    if attempt < maxRetries {
      UnavailableFrom(maxRetries, responses, attempt + 1);
    }
  }

  /** With max_retries = N and a remote that always answers 503 without
      Retry-After: exactly N + 1 calls, N pauses of 1, 2, ..., 2^(N-1)
      seconds, then AsanaError with status 503. */
  lemma AlwaysUnavailable(n: nat, responses: seq<Response>)
    requires n < |responses|
    requires forall i | 0 <= i < |responses| :: responses[i].status == 503 && responses[i].retryAfter.None?
    ensures var t := Execute(n, responses);
      t.calls == n + 1 &&
      |t.delays| == n && (forall i | 0 <= i < n :: t.delays[i] == Pow2(i)) &&
      t.outcome.Raised? && t.outcome.error.statusCode == 503
  {
    UnavailableFrom(n, responses, 0);
  }

  /** The retry-exhaustion error is raised exactly when the loop runs zero
      times, that is when max_retries is negative. */
  lemma ExhaustionOnlyWithoutAttempts(maxRetries: int, responses: seq<Response>)
    ensures Execute(maxRetries, responses).outcome == Raised(NewAsanaError(500, ExhaustionMessage, Null))
      <==> maxRetries < 0
  {
    if maxRetries >= 0 {
      CallsBounded(maxRetries, responses);
      EndsAtLastCall(maxRetries, responses, 0);
    }
  }

  /** `AsanaClient`: the base URL without trailing slashes, the timeout, the
      retry bound and the bearer credential, fixed at construction. */
  class AsanaClient {
    const baseUrl: string
    const timeoutSeconds: string
    const maxRetries: int
    /** The Authorization header every request carries (RFC 6750, section 2.1). */
    const authorization: string

    /** Every request handed to the transport, in order. */
    ghost var sent: seq<HttpRequest>
    /** Every pause slept between attempts, in seconds, in order. */
    ghost var slept: seq<nat>

    constructor (settings: Config.Settings)
      ensures baseUrl == TrimEnd(settings.apiBase, {'/'})
      ensures timeoutSeconds == settings.timeoutSeconds && maxRetries == settings.maxRetries
      ensures authorization == "Bearer " + settings.accessToken
      ensures sent == [] && slept == []
    {
      baseUrl := TrimEnd(settings.apiBase, {'/'});
      timeoutSeconds := settings.timeoutSeconds;
      maxRetries := settings.maxRetries;
      authorization := "Bearer " + settings.accessToken;
      sent := [];
      slept := [];
    }

    /** `request`: tries up to max_retries + 1 times, returning the first
        response below 400, pausing after each retryable failure that still
        has attempts left, and raising on any other failure. */
    method Request(request: HttpRequest, responses: seq<Response>) returns (outcome: Outcome)
      modifies this
      ensures outcome == Execute(maxRetries, responses).outcome
      ensures sent == old(sent) + Repeat(request, Execute(maxRetries, responses).calls)
      ensures slept == old(slept) + Execute(maxRetries, responses).delays
    {
      ghost var paused: seq<nat> := [];
      var attempt: nat := 0;
      while attempt < maxRetries + 1
        invariant maxRetries >= 0 ==> attempt <= maxRetries + 1
        invariant maxRetries < 0 ==> attempt == 0
        invariant Execute(maxRetries, responses).outcome == Attempts(maxRetries, responses, attempt).outcome
        invariant Execute(maxRetries, responses).calls == attempt + Attempts(maxRetries, responses, attempt).calls
        invariant Execute(maxRetries, responses).delays == paused + Attempts(maxRetries, responses, attempt).delays
        invariant sent == old(sent) + Repeat(request, attempt)
        invariant slept == old(slept) + paused
        decreases maxRetries + 1 - attempt
      {
        sent := sent + [request];
        if attempt >= |responses| {
          return Escaped(TransportError);
        }
        var response := responses[attempt];
        if response.status < 400 {
          if response.json.Some? {
            return Returned(response.json.value);
          }
          return Escaped(JsonDecodeError);
        }
        if IsRetryable(response.status) && attempt < maxRetries {
          var delay: nat;
          if response.retryAfter.Some? && response.retryAfter.value != "" {
            var parsed := ParseDigits(response.retryAfter.value);
            if parsed.None? {
              return Escaped(RetryAfterValueError);
            }
            delay := parsed.value;
          } else {
            delay := Pow2(attempt);
          }
          slept := slept + [delay];
          paused := paused + [delay];
          attempt := attempt + 1;
          continue;
        }
        var details := if response.json.Some? then response.json.value else Object(map["message" := Str(response.text)]);
        return Raised(NewAsanaError(response.status, ApiErrorMessage, details));
      }
      outcome := Raised(NewAsanaError(500, ExhaustionMessage, Null));
    }
  }
}
