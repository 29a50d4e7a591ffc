# OpenRobot API wrapper: a Dafny model of `SyncClient`

This project models the core of the synchronous OpenRobot API client,
`SyncClient` in `openrobot/api_wrapper/_sync.py`, and proves properties of
that model. The modelled core has four parts:

- **Construction.** A falsy token falls back to the token file. A client
  with no token at all raises `NoTokenProvided`. A warning is issued for the
  `I-Am-Testing` placeholder token unless `ignore_warning` is set.
- **Authorization.** `_get_authorization_headers` returns either the
  `token=...` query text or the `{'Authorization': token}` header dict.
- **`_request`.** It merges the headers and normalises the URL, then runs
  the loop that sends requests. Each response status maps to a return value,
  an exception, or a sleep. After a sleep the loop tries again while the try
  count allows, and otherwise raises `TooManyRequests` (line 138).
- **`ocr`.** It picks between a URL query parameter and a file upload.

Files:

- `wire.dfy` (module `Wire`): responses, outgoing requests, the exceptions
  the client raises, and the two ways a call ends (`Returned` or `Raised`).
- `url.dfy` (module `Url`): the URL normalisation of lines 83-94, including
  Python's out-of-range slicing and the host pattern as the regex engine
  reads it.
- `retry.dfy` (module `Retry`): `Classify`, the loop body for one response,
  and `Loop`, a reference definition of the `while` loop over a finite stream
  of responses, with the lemmas about retries.
- `client.dfy` (module `Client`): token resolution and the class
  `SyncClient`. The class holds the fields `token`, `handleRatelimit` and
  `tries`. Its members are the constructor, `New`, `AuthorizationHeaders`,
  `Dispatch` (the specification of `_request`), `Request`, `Retrying` (the
  loop itself, as an imperative method with invariants) and `Ocr`.

How the model treats the outside world:

- The transport is a sequence of `Response` values. Each has a status, the
  decoded body or `None` when `r.json()` fails, and an optional integer
  `Retry-After`.
- `time.sleep` becomes a returned log of durations.
- `get_token_from_file()` becomes a parameter of `New`.
- `warnings.warn` becomes a boolean result.

Behaviours of the code that the model keeps as written:

- Caller headers never win. A non-empty caller dict is popped at line 76 and
  indexed again at line 77, which raises `KeyError`. Any other caller value
  is overwritten by the authorization header.
- No absolute URL is used unchanged. Line 83 drops the first character of
  every string that does not start with `/`.
  - The host pattern on line 91 is a one-character class.
  - A string that matches it is refused with `TypeError` rather than
    accepted.
  - So every accepted URL is the API base followed by a suffix of the input.
    An absolute URL comes out as the base plus the input without its first
    five characters (`AbsoluteUrlRebased`).
- `tries = None` retries for ever, as the docstring at lines 39-40 says:
  `if tries:` never decrements `None`.
- With a try count of zero or less, the loop never runs, so line 138 raises
  on an unbound `r`. The model calls this `UnboundResponse`.
- The constructor's defaults (line 48) are kept: `token='I-Am-Testing'`,
  `ignore_warning=False`, `handle_ratelimit=True`, `tries=5`. A bare
  `SyncClient()` therefore never reads the token file and warns; only an
  explicit `None` or `''` token reaches `get_token_from_file()`.

## Model

| member | source | states |
|---|---|---|
| `Url.Slice` | openrobot/api_wrapper/_sync.py:84 | Python's `s[k:]`. The result is a suffix of `s` of length `|s| - k`, or empty once `k` passes the end. |
| `Url.Stripped` | openrobot/api_wrapper/_sync.py:83-89 | The two slicing steps keep a suffix of the input and drop at most five leading characters. |
| `Url.Normalise` | openrobot/api_wrapper/_sync.py:83-94 | The call succeeds iff `no_url_regex` is falsy and the sliced string does not match the host pattern. Otherwise it raises `TypeError`. On success the URL starts with `https://api.openrobot.xyz/api`, is strictly longer than the input (so never the input unchanged), and continues with a suffix of the input. |
| `Url.ApiPathNormalises` | openrobot/api_wrapper/_sync.py:83-92 | A path starting with `/api`, whose remainder after index 4 does not match the host pattern, becomes `https://api.openrobot.xyz` followed by the whole path. |
| `Url.AbsoluteUrlRebased` | openrobot/api_wrapper/_sync.py:83-94 | An `http://` or `https://` URL is not passed through. It becomes the API base followed by the input minus its first five characters. |
| `Url.RealHostsNeverMatch` | openrobot/api_wrapper/_sync.py:91 | The character-class pattern accepts no URL on `api.openrobot.xyz` or on `lyrics.ayomerdeka.com`. |
| `Retry.Classify` | openrobot/api_wrapper/_sync.py:104-136 | For one decoded response, the call returns iff the status is in `return_on` or is 2xx. It then returns `r` when `raw` is set and the body otherwise. The response ends in a sleep iff the status is a 429 that is not in `return_on`, rate limits are handled, and `Retry-After` is present and non-negative. The sleep is `Retry-After` seconds. After the sleep the loop goes round again only while the try count allows (see `Retry.BoundedRetriesExhaust`). |
| `Retry.Loop` | openrobot/api_wrapper/_sync.py:96-138 | The number of requests made is at most the number of responses, and at most `n` when `tries = n` (none when `n <= 0`). Requests equal sleeps, or sleeps plus the one that ended the call. |
| `Retry.PassThroughFirst` | openrobot/api_wrapper/_sync.py:104-108 | A status in `return_on` ends the call after one request with no sleep. It takes precedence over 403, 429, 500 and every other rule. |
| `Retry.OneRequestOutcomes` | openrobot/api_wrapper/_sync.py:109-136 | For a status not in `return_on`, the call ends after exactly one request with no sleep. 403, 400 and 500 raise `Forbidden`, `BadRequest` and `InternalServerError` with the response and body. 2xx returns the body, or `r` when `raw` is set. Any other non-429 status raises `OpenRobotAPIError` with the response and body. A 429 without rate-limit handling raises `TooManyRequests`. A 429 without `Retry-After` raises `KeyError`. A 429 with a negative `Retry-After` raises `NegativeSleep`, because `time.sleep` refuses it. |
| `Retry.UndecodableEndsCall` | openrobot/api_wrapper/_sync.py:100-102 | A body that `r.json()` cannot decode ends the call after one request with `JsonDecodeError`, before any status check, `return_on` included. |
| `Retry.NoTriesNoRequest` | openrobot/api_wrapper/_sync.py:96-138 | With `tries <= 0` the loop never runs. No request is made and the call fails with the exit error. |
| `Retry.SleepsFollowRetryAfter` | openrobot/api_wrapper/_sync.py:115-125 | The j-th sleep is the `Retry-After` of the j-th response, and that response was a retryable 429. |
| `Retry.RetriesThenDecides` | openrobot/api_wrapper/_sync.py:98-136 | Suppose k retryable 429s are followed by a response that is not retried, and the try count is `None` or greater than k. Then that response decides the outcome, after exactly k + 1 requests, having slept the k `Retry-After` values in order. |
| `Retry.UnboundedOutlastsRateLimits` | openrobot/api_wrapper/_sync.py:96-125 | With `tries = None`, retryable 429s never end the call. A retryable 429 is one where rate limits are handled and `Retry-After` is present and non-negative. The loop sleeps every `Retry-After` and keeps going for as long as the transport answers. An unhandled 429, or one without `Retry-After`, still ends the call at once (`Retry.OneRequestOutcomes`). |
| `Retry.BoundedRetriesExhaust` | openrobot/api_wrapper/_sync.py:96-138 | Take `tries = n > 0` and n retryable 429s in a row. The call makes exactly n requests, sleeps exactly those n `Retry-After` values in order, and raises `TooManyRequests` with the last response and its body. |
| `Client.ResolveToken` | openrobot/api_wrapper/_sync.py:48-52 | A truthy token is used as given. Otherwise the file token is used if it is truthy. `NoTokenProvided` is raised iff both are falsy. |
| `Client.FileIgnoredWhenTokenGiven` | openrobot/api_wrapper/_sync.py:49 | With a truthy token the file's content makes no difference. |
| `Client.MergeHeaders` | openrobot/api_wrapper/_sync.py:74-79 | A non-empty caller dict leads to `KeyError`. In every other case the outgoing headers are exactly the authorization headers. |
| `Client.OcrOptions` | openrobot/api_wrapper/_sync.py:417-422 | A URL source becomes the `url` query parameter. A byte buffer becomes the `upload_file` upload. Any other source raises `OpenRobotAPIError`. |
| `Client.NonPositiveTriesNeverSend` | openrobot/api_wrapper/_sync.py:96-138 | A client with `tries <= 0` sends nothing. Once headers and URL pass, the call fails on the unbound `r` of line 138. |
| `Client.SyncClient.constructor` | openrobot/api_wrapper/_sync.py:56-60 | The fields hold the given token, `handle_ratelimit` and `tries`. |
| `Client.SyncClient.New` | openrobot/api_wrapper/_sync.py:48-60 | Takes the same defaults as `__init__`: token `I-Am-Testing`, and keyword-only `ignore_warning=False`, `handle_ratelimit=True`, `tries=5`. Construction fails with `NoTokenProvided` iff neither token is truthy. Otherwise a fresh client holds the resolved (non-empty) token and the given settings. The warning is issued exactly when the resolved token is `I-Am-Testing` and `ignore_warning` is false. |
| `Client.BareConstructionWarns` | openrobot/api_wrapper/_sync.py:48-53 | With the default token, whatever the token file holds, the client keeps `I-Am-Testing` and the warning is issued. |
| `Client.SyncClient.EffectiveToken` | openrobot/api_wrapper/_sync.py:65 | The explicit token when it is truthy, otherwise `self.token`. |
| `Client.SyncClient.AuthorizationHeaders` | openrobot/api_wrapper/_sync.py:64-69 | With `header=False` the result is `token=` followed by the effective token. Otherwise it is a dict whose only key, `Authorization`, maps to that token. |
| `Client.SyncClient.Dispatch` | openrobot/api_wrapper/_sync.py:71-138 | For a client built by the constructor, every request sent goes to the normalised URL: under the API base and never the given URL. It has the same verb and payload, and its headers are exactly `{'Authorization': self.token}` with a non-empty token. A non-empty caller dict raises `KeyError` before any request. Otherwise a URL that normalisation refuses (`no_url_regex`, or the host pattern) raises `TypeError` before any request. There are no more requests than `tries` allows and no more sleeps than requests. Once headers and URL pass, the call ends as `Retry.Loop` does: the same outcome, one request sent per request the loop makes, and the same sleeps. So the `Retry` lemmas apply to `_request` directly. |
| `Client.SyncClient.Request` | openrobot/api_wrapper/_sync.py:71-94 | `_request` returns or raises, sends requests and sleeps exactly as `Dispatch` specifies. |
| `Client.SyncClient.Retrying` | openrobot/api_wrapper/_sync.py:96-138 | The imperative `while` loop yields the outcome, request count and sleep log of the reference definition `Retry.Loop`. |
| `Client.SyncClient.Ocr` | openrobot/api_wrapper/_sync.py:417-424 | An unsupported source raises `OpenRobotAPIError` without a request. Otherwise every request is a POST to `https://api.openrobot.xyz/api/ocr` carrying the URL parameter or the upload, and the call behaves as `_request` on those arguments. |

## Left out

- The HTTP transport (`requests.Session`, `s.request`) is replaced by a finite sequence of responses. When that sequence runs out the model ends with `TransportExhausted`. The real client would instead wait for the next answer, or loop for ever under `tries = None`.
- JSON decoding (`r.json()`) is not modelled. A response carries its decoded body, or `None` when decoding fails, which gives `JsonDecodeError` before any status check.
- `int()` parsing of `Retry-After` is not modelled. The header is an optional integer, so a value that `int()` rejects is not represented.
- A negative `Retry-After` ends the call with `NegativeSleep`, because `time.sleep` refuses negative durations.
- Retry.Classify: a `Retry-After` too large for `time.sleep` makes Python raise `OverflowError`. The limit is the signed 64-bit nanosecond range, about 9.2e9 seconds. The model has no upper bound and sleeps any non-negative duration, so `Wire.Error` has no overflow case.
- `time.sleep` is not modelled as blocking. The durations are returned as a log.
- `warnings.warn` is a boolean result of `New`.
- `get_token_from_file` reads the file system in a module that is not part of this model. Its result is a parameter of `New`. Whether the file is read is captured only as "the result does not depend on it" (`Client.FileIgnoredWhenTokenGiven`).
- `str()` conversions of the token and the URL are identities here, because both are strings.
- The `headers` keyword is a dict or "some other value". Only a non-empty dict changes behaviour.
- The keyword arguments are a record (`Client.Options`). The keys `_request` pops (`headers`, `return_on`, `raw`, `no_url_regex`) are fields. What is forwarded to `s.request` is an opaque payload.
- `return_on` is a list of integers. Membership tests on other container types are not modelled.
- `quote`/`quote_plus` are a foreign URL-encoding library.
- The endpoint wrappers other than `ocr` (lines 142-391) each pass their path to `_request`, plus at most a `data` dict (lines 170, 224, 282) or a `params` dict (lines 363, 390). They are not modelled separately, and `Url.ApiPathNormalises` covers their `/api/...` paths.
- The result classes from `.results` are not part of this model, so `Client.SyncClient.Ocr` stops at the decoded body and does not build an `OCRResult`.
- The `translate` and `speech` properties live in modules that are not part of this model.
- Client.SyncClient.Dispatch, `Request` and `Ocr` assume the non-empty token every client gets from `__init__` (`Valid`). Reassigning `client.token` to `''` after construction is not modelled.
- The exception classes of `.error` are not part of this model. Each is a constructor of `Wire.Error` carrying the response and body.
