# Asana MCP bridge: the request core, in Dafny

This project models the core of a bridge that exposes eight Asana
operations as tools to an agent host. A host can list workspaces, read the
current user, list projects, get a task, search tasks, and create, update
or delete a task. The model covers four parts:

- **Redactor and audit log** (`logging_utils.dfy`). `redact_dict` masks the
  value of every key whose lower-cased form is a sensitive key. It does so
  at any depth, inside maps and lists. `audit` hands one record per tool
  invocation to the logger, holding the event name and the redacted
  payload. The audit
  sink is a class whose list of records only grows. Its invariant is that
  no record holds an unmasked payload.
- **Client** (`asana_client.dfy`). `_is_retryable` classifies statuses.
  `AsanaError` is the error the client raises. `AsanaClient` is a class
  whose `Request` method runs the bounded retry loop as a `while` loop. It
  is proved against `Attempts`, a state machine over the attempt counter.
  The transport is a sequence of responses: the i-th response answers the
  i-th call. Every request the client sends and every pause it sleeps go
  into two ghost logs (`sent`, `slept`).
- **Tools** (`tool_impl.dfy`). This part covers the input classes (one
  field table per tool), validation with `exclude_none`, the audit call and
  the move of the path identifier into the URL. It also covers the
  request each tool sends, the `ok`/`err` envelopes, and `Invoke`: one
  method that performs any of the eight tool functions against an
  `AuditLog` and an `AsanaClient`.
- **Configuration** (`config.dfy`). This part covers the `Settings` fields
  and their defaults, and how `from_env` selects the token from the token
  file or the environment. The environment is a map from names to values.
  The file system is a map from paths to file contents.

Shared pieces:

- `json.dfy` holds JSON values and Python truthiness.
- `py_text.dfy` holds `str.strip`, `str.rstrip` and reading decimal digits.
- `wrappers.dfy` holds `Option` and `Result`.

Behaviour of the code worth knowing, which the model keeps:

- **Validation errors.** A payload that fails validation makes the tool
  raise pydantic's `ValidationError`. It is not turned into an error
  envelope (`Rejected` in the model).
- **Other exceptions.** Only `AsanaError` is caught at the tool boundary.
  Three other exceptions escape to the caller (`Propagated`): a transport
  failure, a success body that is not JSON, and a `Retry-After` value that
  `float()` cannot read.
- **Retry exhaustion.** The retry-exhaustion error is not unreachable. It
  is raised exactly when `ASANA_MAX_RETRIES` is negative, because the loop
  then runs zero times (`ExhaustionOnlyWithoutAttempts`).

## Model

| member | source | states |
|---|---|---|
| LoggingUtils.ListedKeysSensitive | src/logging_utils.py:6-15 | every key of the sensitive-key list is sensitive as written |
| LoggingUtils.SensitiveInAnyCase | src/logging_utils.py:32 | the test lower-cases the key first: "Authorization", "ACCESS_TOKEN" and a spelling with the KELVIN SIGN (lower-cased to "k") are all sensitive |
| LoggingUtils.UnlistedKeysKept | src/logging_utils.py:32 | membership is exact: "name" and "token_id", which merely contains a listed key, are not sensitive |
| LoggingUtils.RedactValue | src/logging_utils.py:18-25 | None stays None; every other value, whatever its type, becomes "[REDACTED]" |
| LoggingUtils.Redact | src/logging_utils.py:28-39 | a map keeps exactly its keys and a list its length, any other value is returned unchanged, and the result is always masked at every depth |
| LoggingUtils.RedactEntry | src/logging_utils.py:31-35 | the key survives in the result; a sensitive key's non-None value becomes the marker and its None stays None; a non-sensitive key's value is the recursive redaction |
| LoggingUtils.RedactElement | src/logging_utils.py:37-38 | a list keeps its length and each element is the redaction of the element at the same position |
| LoggingUtils.MaskedIsFixpoint | src/logging_utils.py:28-39 | redaction leaves a value unchanged exactly when the value is already masked |
| LoggingUtils.RedactIdempotent | src/logging_utils.py:28-39 | redacting twice gives the same value as redacting once |
| LoggingUtils.SensitiveMaskedAtAnyDepth | src/logging_utils.py:28-39 | at any nesting depth, through maps and lists, the value under a sensitive key (case-insensitively) is replaced by the marker (None stays None) |
| LoggingUtils.UnguardedScalarUnchanged | src/logging_utils.py:39 | a scalar not under any sensitive key is left exactly as it was |
| LoggingUtils.RedactAlongPath | src/logging_utils.py:28-39 | every path that avoids sensitive keys survives redaction and leads to the redaction of the original value there |
| LoggingUtils.RedactionExampleTopLevel | tests/test_redaction.py:4-13 | in the sample payload, "access_token" and "notes" read back as "[REDACTED]" |
| LoggingUtils.RedactionExampleNested | tests/test_redaction.py:14 | in the sample payload, the token inside "nested" reads back as "[REDACTED]" |
| LoggingUtils.RedactionExampleInList | tests/test_redaction.py:15 | in the sample payload, the password in the map at index 0 of "list" reads back as "[REDACTED]" |
| LoggingUtils.EmittedFields | src/logging_utils.py:69 | an audit line has exactly the fields "event" and "payload", in sorted key order, carrying the event name and the redacted payload |
| LoggingUtils.AuditLog.Audit | src/logging_utils.py:67-70 | appends exactly one record, the event with the redacted payload, and keeps the invariant that no record holds an unmasked value |
| PyText.TrimEnd | src/asana_client.py:23 | `rstrip("/")`: the result is a prefix of the input that does not end in "/", and only "/" characters were removed |
| PyText.Strip | src/config.py:31 | `strip()`: the result is the text from the end of its leading whitespace run, with only whitespace after it; it is empty exactly when the text is all whitespace, and otherwise neither starts nor ends with whitespace |
| PyText.ParseInt | src/config.py:40 | `int()` accepts exactly an optional sign followed by decimal digits, after stripping whitespace; a negative result needs a minus sign |
| PyText.ParseDigits | src/asana_client.py:54 | a header value is read as a delay exactly when it is a non-empty run of decimal digits |
| PyText.ParseIntShowNat | src/config.py:40 | `int()` reads back the decimal text of every natural number, so the retry count "3" gives 3 |
| PyText.ParseIntNegative | src/config.py:40 | `int()` reads back "-" followed by the decimal text of n as -n |
| Config.SelectToken | src/config.py:21-37 | selecting the token fails exactly when ASANA_TOKEN_FILE is set but blank after stripping |
| Config.FromEnv | src/config.py:19-51 | loading succeeds exactly when token selection succeeds with a non-empty token and the retry count parses; the settings then hold that token, the API base, timeout, log level and log file from their variables or defaults, and the retry count int() reads; a blank token-file variable always fails |
| Config.UnsetVariablesTakeDefaults | src/config.py:38-42 | for any environment and files, each set variable is taken as it is (the retry count through int()) and each unset one takes its default |
| Config.BlankTokenFileFails | src/config.py:22-26 | a token-file variable that is present and all whitespace stops loading with its own error |
| Config.TokenFileWins | src/config.py:27-37 | an existing, non-blank token file supplies the token, stripped, whatever ASANA_ACCESS_TOKEN says |
| Config.EnvTokenFallback | src/config.py:36-51 | without a usable token file, ASANA_ACCESS_TOKEN is used verbatim; loading fails with the configuration error exactly when that variable is unset or empty |
| Config.EmptyTokenRejected | src/config.py:44-51 | an empty selected token is refused with the configuration error rather than producing settings |
| Config.MalformedRetriesRaise | src/config.py:40 | a malformed ASANA_MAX_RETRIES raises int()'s error, before the token is checked |
| Config.Defaults | src/config.py:8-16 | with only a token set, the defaults are the public API base, "30" seconds, 3 retries, level INFO and logs/asana-mcp.log |
| Client.IsRetryable | src/asana_client.py:16-17 | a status is retried exactly when it is 429 or a 5xx from 500 to 504 other than 501 |
| Client.NewAsanaError | src/asana_client.py:9-13 | status and message are kept; details are never None, and None or empty details become the empty map |
| Client.RetryDelay | src/asana_client.py:53-54 | a present, non-empty Retry-After gives its number of seconds (or raises when unreadable); otherwise the pause is 2^attempt |
| Client.ErrorBody | src/asana_client.py:58-61 | the details of an error response are its JSON body, or, when the body is not JSON, the map {"message": text}, which is never empty |
| Client.Attempts | src/asana_client.py:42-64 | the retry loop as a state machine over the attempt counter; what it promises is stated by the lemmas below |
| Client.AttemptsBounded | src/asana_client.py:42 | from any attempt within the bound, the loop makes at least one and at most the remaining number of calls, with one pause between consecutive calls |
| Client.CallsBounded | src/asana_client.py:42 | a request makes between 1 and max_retries + 1 calls, with one pause fewer than calls, and none when max_retries is negative |
| Client.PausesFollowRetryableFailures | src/asana_client.py:52-56 | every pause follows a retryable failure on an attempt that still had retries left, and lasts the Retry-After value or 2^attempt |
| Client.EndsAtLastCall | src/asana_client.py:42-62 | each way the request can end is traced to the response answering its last call: a returned body is that response's JSON, below 400; an API error is that response's terminal or final-attempt failure, with its status and body as details; a transport failure means no response was left; a non-JSON body escapes only below 400; an unreadable Retry-After escapes only on a retryable failure with attempts left |
| Client.LastResponseDecides | src/asana_client.py:49-62 | conversely, the last response decides the outcome: none left gives the transport failure; below 400 gives its JSON body (or the JSON error); a terminal or final-attempt failure gives the API error with its status and body |
| Client.ReturnsFirstSuccess | src/asana_client.py:42-56 | a response below 400 that follows only retryable failures with readable pauses, within the retry bound, is returned as its JSON body after one call per attempt |
| Client.SuccessShortCircuits | src/asana_client.py:49-50 | a first response below 400 is returned after one call, with no pause |
| Client.RetryAfterHonoured | src/asana_client.py:53-55 | a 429 with "Retry-After: 5" makes the first pause 5 seconds, not 2^0 |
| Client.UnavailableFrom | src/asana_client.py:42-62 | against a remote that always answers 503, from any attempt: one call per remaining attempt, pauses of 2^k, then an API error with status 503 |
| Client.AlwaysUnavailable | src/asana_client.py:42-62 | with max_retries = N and a remote that always answers 503: N + 1 calls, pauses of 1, 2, ..., 2^(N-1) seconds, then an API error with status 503 |
| Client.ExhaustionOnlyWithoutAttempts | src/asana_client.py:64 | the retry-exhaustion error is raised if and only if max_retries is negative |
| Client.AsanaClient.constructor | src/asana_client.py:21-30 | the base URL loses its trailing slashes, the bearer header carries the configured token, and timeout and retry bound come from the settings |
| Client.AsanaClient.Request | src/asana_client.py:35-64 | the loop's outcome, the requests it sends and the pauses it sleeps are exactly those of the retry state machine |
| ToolImpl.Schema | src/tool_impl.py:41-97 | the input classes: the required fields are exactly the path identifier and create_task's name, and "limit" is the only bounded number |
| ToolImpl.OnlyRequiredFieldsMandatory | src/tool_impl.py:41-97 | a field may be absent or None exactly when it is not required, since every optional field defaults to None |
| ToolImpl.Validate | src/tool_impl.py:41-97 | a payload is accepted exactly when every declared field accepts its value; the data are then the declared, non-None fields, unchanged, and undeclared keys are ignored; a rejection names exactly the failing fields, and at least one |
| ToolImpl.ValidatedConstraints | src/tool_impl.py:49-97 | validated data hold every required identifier or name as a non-empty string, and any limit lies between 1 and 100 |
| ToolImpl.ValidatedHasPathId | src/tool_impl.py:123 | validated data of a tool with a path identifier always carry that identifier as a string |
| ToolImpl.AuditKeepsPathId | src/tool_impl.py:122-123 | the audit record still carries the path identifier, unmasked, because the data are audited before the identifier is popped |
| ToolImpl.NoneDroppedEmptyKept | src/tool_impl.py:101 | None-valued fields never reach the data, while an empty string in a declared field is kept |
| ToolImpl.ParamsOrNone | src/tool_impl.py:104 | `data or None`: parameters are present exactly when the data are non-empty, and then are the data |
| ToolImpl.PathIdOnlyInPath | src/tool_impl.py:123-128 | the path identifier appears in the URL path between the tool's fixed prefix and suffix, and in neither the query parameters nor the body |
| ToolImpl.RequestFor | src/tool_impl.py:100-198 | the reading tools use GET and only they may send query parameters, never an empty map; create_task and update_task, and only they, send a body |
| ToolImpl.DataForwarded | src/tool_impl.py:100-198 | every validated field except the path identifier reaches the API, in the query parameters or in the body's "data", with its value, and no other field does |
| ToolImpl.CreateTaskShape | src/tool_impl.py:169 | create_task POSTs {"data": data} to /tasks with no query parameters |
| ToolImpl.TaskGidRequestShapes | src/tool_impl.py:178-195 | update_task PUTs {"data": rest} to /tasks/{gid}; delete_task DELETEs /tasks/{gid} with neither parameters nor body |
| ToolImpl.CreateTaskExamples | src/tool_impl.py:165-169 | an empty name is rejected; {"name": "Write spec"} validates unchanged and becomes one POST to /tasks with body {"data": {"name": "Write spec"}} |
| ToolImpl.Ok | src/tool_impl.py:25-26 | a valid envelope with exactly "status" and "data", carrying the data |
| ToolImpl.Err | src/tool_impl.py:29-33 | a valid envelope with exactly "status" and "error"; the error holds the code and the message, plus the details if and only if they are truthy |
| ToolImpl.ErrorDetails | src/tool_impl.py:107 | the error details hold exactly the status code and the error's details, masked, and are never empty |
| ToolImpl.Wrap | src/tool_impl.py:103-107 | a returned body or an API error always yields a valid envelope, with the data or with the code "asana_error", the message, the status and masked details; any other exception propagates |
| ToolImpl.Invoke | src/tool_impl.py:100-198 | a rejected payload leaves the audit log and the client untouched; an accepted one adds exactly one redacted audit record, sends the tool's request once per attempt, and returns the wrapped outcome of the retry loop |

## Left out

- The HTTP transport (`httpx`) is left out. It becomes the sequence of responses handed to `Request`. The connection pool, the request timeout and `close()` are not modelled. Header lookup is case-insensitive in `httpx`; the model reads one `Retry-After` value.
- The audit log holds what `audit` hands to `logger.info`. The logger's level filtering (set from `LOG_LEVEL` by `setup_logging`), which drops the record when the level is above INFO, is not modelled.
- `time.sleep` is not performed. Each pause is recorded in the ghost log `slept`.
- Client.RetryDelay: models only the delay-seconds form of `Retry-After` (ASCII digits). Python's `float()` also accepts fractions, exponents, surrounding whitespace, signs, "inf" and "nan". The model treats all of these as raising, and floating point is not modelled. An HTTP-date value raises in both the code and the model.
- Config.FromEnv: does not model the `float()` conversion of `ASANA_TIMEOUT_SECONDS`. The timeout is kept as text, so a malformed value, which raises before the retry count is read, is not modelled.
- Config.FromEnv: a token file that exists but cannot be read, path normalisation by `Path`, and the informational and warning log lines of `from_env` are not modelled.
- PyText.ParseInt: `int()` is modelled on an optional sign and ASCII digits after `strip()`. Underscores between digits and non-ASCII decimal digits are not modelled.
- ToolImpl.Validate: pydantic's lax coercions are not modelled. These include numeric strings for `limit`, "true"/1 for flags, and integral floats. Each field accepts only its own JSON type. JSON numbers are integers.
- Python dict ordering is not modelled: maps are unordered. The text `json.dumps` produces (spacing, escaping, nested key order) is not modelled beyond the sorted top-level fields of an audit line.
- ToolImpl.Invoke: does not state that the audit record is written before the request is sent. Both effects are in the contract, but their relative order is not.
- The gid is interpolated into the URL path exactly as given. The model does not model URL escaping, which the code does not perform either.
- `setup_logging`, `get_logger`, the `lru_cache` singletons for the client and the settings, `src/tools.py`, `src/server.py` and the scripts are not part of this model. Neither is concurrency between invocations.
