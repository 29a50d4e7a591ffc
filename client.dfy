/**
 The `SyncClient` of openrobot/api_wrapper/_sync.py: its construction from a
 token (with the token-file fallback), the authorization header it builds,
 and `_request`, which merges headers, normalises the URL and runs the
 rate-limit loop over the transport's responses. The OCR wrapper's choice
 between a URL query and a file upload closes the module.
 */
module Client {
  import opened Wire
  import opened Url
  import opened Retry

  /** The placeholder token, limited to 5 requests a day, that draws a warning. */
  const TestingToken: string := "I-Am-Testing"

  /** Python truthiness of an optional string: present and non-empty. */
  predicate Truthy(s: Option<string>)
  {
    s.Some? && s.value != ""
  }

  /**
   `token or get_token_from_file()` followed by the `not token` check: the
   token given when it is truthy, else the token file's when that is, else
   NoTokenProvided.
   */
  function ResolveToken(token: Option<string>, fileToken: Option<string>): (r: Result<string>)
    ensures r.Failure? <==> !Truthy(token) && !Truthy(fileToken)
    ensures r.Failure? ==> r.error == NoTokenProvided
    ensures Truthy(token) ==> r == Success(token.value)
    ensures !Truthy(token) && Truthy(fileToken) ==> r == Success(fileToken.value)
  {
    if Truthy(token) then Success(token.value)
    else if Truthy(fileToken) then Success(fileToken.value)
    else Failure(NoTokenProvided)
  }

  /** A truthy token is used as given: what the token file holds makes no difference. */
  lemma FileIgnoredWhenTokenGiven(token: Option<string>, file1: Option<string>, file2: Option<string>)
    requires Truthy(token)
    ensures ResolveToken(token, file1) == ResolveToken(token, file2)
  {
  }

  /** The warning is issued exactly for the placeholder token when warnings are not ignored. */
  predicate Warns(resolved: Result<string>, ignoreWarning: bool)
  {
    resolved.Success? && resolved.value == TestingToken && !ignoreWarning
  }

  /** The value of a `headers` keyword argument: a dict, or some other value. */
  datatype HeaderArg = DictArg(entries: map<string, string>) | OtherArg

  /**
   The keyword arguments `_request` reads and pops (`headers`, `return_on`,
   `raw`, `no_url_regex`) and the payload it forwards to the transport.
   */
  datatype Options = Options(
    headers: Option<HeaderArg>,
    returnOn: seq<int>,
    raw: bool,
    noUrlRegex: bool,
    payload: Payload)

  /** What `_get_authorization_headers` returns: `token=...` text, or a header dict. */
  datatype Authorization = QueryToken(text: string) | HeaderDict(headers: map<string, string>)

  predicate NonEmptyDict(h: Option<HeaderArg>)
  {
    h.Some? && h.value.DictArg? && h.value.entries != map[]
  }

  /**
   Lines 74-79. A non-empty caller dict is popped and then indexed again,
   which raises KeyError; in every other case the caller's value is replaced
   by the authorization headers, so the caller never wins.
   */
  function MergeHeaders(caller: Option<HeaderArg>, auth: map<string, string>): (r: Result<map<string, string>>)
    ensures r.Failure? <==> NonEmptyDict(caller)
    ensures r.Failure? ==> r.error == HeadersKeyError
    ensures r.Success? ==> r.value == auth
  {
    if NonEmptyDict(caller) then Failure(HeadersKeyError) else Success(auth)
  }

  /** Default keyword arguments: nothing popped, no payload. */
  const NoOptions: Options := Options(None, [], false, false, NoPayload)

  /** The source of an image for OCR: a URL string, an in-memory byte buffer, or anything else. */
  datatype OcrSource = UrlSource(url: string) | BytesSource(content: seq<bv8>) | OtherSource

  /**
   Lines 417-422: a URL goes as the `url` query parameter, a byte buffer as
   the multipart file `upload_file`, anything else raises OpenRobotAPIError
   before any request.
   */
  function OcrOptions(source: OcrSource): (r: Result<Options>)
    ensures r.Failure? <==> source.OtherSource?
    ensures r.Failure? ==> r.error == InvalidOcrSource
    ensures source.UrlSource? ==> r == Success(NoOptions.(payload := Params(map["url" := source.url])))
    ensures source.BytesSource? ==> r == Success(NoOptions.(payload := Upload("upload_file", source.content)))
  {
    match source
    case UrlSource(url) => Success(NoOptions.(payload := Params(map["url" := url])))
    case BytesSource(content) => Success(NoOptions.(payload := Upload("upload_file", content)))
    case OtherSource => Failure(InvalidOcrSource)
  }

  /**
   A bare `SyncClient()` keeps the placeholder token whatever the token file
   holds, and so draws the warning.
   */
  lemma BareConstructionWarns(fileToken: Option<string>)
    ensures ResolveToken(Some(TestingToken), fileToken) == Success(TestingToken)
    ensures Warns(ResolveToken(Some(TestingToken), fileToken), false)
  {
  }

  /** The same request sent n times. */
  function Repeat(q: HttpRequest, n: nat): seq<HttpRequest>
  {
    if n == 0 then [] else Repeat(q, n - 1) + [q]
  }

  /** Repeating a request n times sends n requests, each of them that request. */
  lemma {:induction false} RepeatSends(q: HttpRequest, n: nat)
    ensures |Repeat(q, n)| == n
    ensures forall k :: 0 <= k < n ==> Repeat(q, n)[k] == q
  {
    if n > 0 {
      RepeatSends(q, n - 1);
    }
  }

  /** What one `_request` call does: how it ends, the requests it sends, the sleeps it takes. */
  datatype Call = Call(outcome: Outcome, sent: seq<HttpRequest>, sleeps: seq<nat>)

  class SyncClient {
    var token: string
    var handleRatelimit: bool
    var tries: Option<int>

    /** The constructor only assigns the fields once the token check passed. */
    ghost predicate Valid()
      reads this
    {
      token != ""
    }

    /** Lines 56-60: the field assignments. */
    constructor (token: string, handleRatelimit: bool, tries: Option<int>)
      requires token != ""
      ensures Valid()
      ensures this.token == token && this.handleRatelimit == handleRatelimit && this.tries == tries
    {
      this.token := token;
      this.handleRatelimit := handleRatelimit;
      this.tries := tries;
    }

    /**
     `SyncClient(token, ignore_warning=..., handle_ratelimit=..., tries=...)`,
     with `fileToken` standing for what `get_token_from_file()` would return
     and the same defaults: the placeholder token, no ignoring of the warning,
     rate limits handled and 5 tries; the last three are keyword-only.
     Either NoTokenProvided, or a new client holding the resolved token and
     the given settings; `warned` tells whether the placeholder warning was
     issued.
     */
    static method New(fileToken: Option<string>, token: Option<string> := Some(TestingToken),
                      nameonly ignoreWarning: bool := false, nameonly handleRatelimit: bool := true,
                      nameonly tries: Option<int> := Some(5))
      returns (client: Result<SyncClient>, warned: bool)
      ensures client.Failure? <==> !Truthy(token) && !Truthy(fileToken)
      ensures client.Failure? ==> client.error == NoTokenProvided && !warned
      ensures client.Success? ==>
        fresh(client.value) && client.value.Valid()
        && client.value.token == ResolveToken(token, fileToken).value
        && client.value.handleRatelimit == handleRatelimit && client.value.tries == tries
      ensures warned <==> Warns(ResolveToken(token, fileToken), ignoreWarning)
    {
      var resolved := if Truthy(token) then token else fileToken;
      if !Truthy(resolved) {
        return Failure(NoTokenProvided), false;
      }
      warned := resolved.value == TestingToken && !ignoreWarning;
      var c := new SyncClient(resolved.value, handleRatelimit, tries);
      client := Success(c);
    }

    /** `token or self.token`. */
    function EffectiveToken(token: Option<string>): (t: string)
      reads this
      ensures Truthy(token) ==> t == token.value
      ensures !Truthy(token) ==> t == this.token
    {
      if Truthy(token) then token.value else this.token
    }

    /**
     `_get_authorization_headers(token, header=...)`: with `header` False the
     text `token=` followed by the effective token, otherwise a dict whose
     only key is `Authorization`, mapped to that same token.
     */
    function AuthorizationHeaders(token: Option<string>, header: bool): (a: Authorization)
      reads this
      ensures a.QueryToken? <==> !header
      ensures a.QueryToken? ==> StartsWith(a.text, "token=") && a.text[6..] == EffectiveToken(token)
      ensures a.HeaderDict? ==>
        a.headers.Keys == {"Authorization"} && a.headers["Authorization"] == EffectiveToken(token)
    {
      var t := EffectiveToken(token);
      if header then HeaderDict(map["Authorization" := t]) else QueryToken("token=" + t)
    }

    /**
     Reference definition of `_request(verb, url, **options)` against the
     transport answering `responses` in turn. Every request it sends goes to
     the API base, with exactly the client's Authorization header; a caller
     dict of headers or `no_url_regex` stop the call before any request; and
     a try count bounds the number of requests.
     */
    function Dispatch(verb: string, url: string, options: Options, responses: seq<Response>): (c: Call)
      reads this
      requires Valid()
      ensures forall k :: 0 <= k < |c.sent| ==>
        c.sent[k].verb == verb && c.sent[k].payload == options.payload
        && StartsWith(c.sent[k].url, ApiBase) && c.sent[k].url != url
        && c.sent[k].headers == map["Authorization" := token] && c.sent[k].headers["Authorization"] != ""
      ensures forall k :: 0 <= k < |c.sent| ==>
        Normalise(url, options.noUrlRegex).Success? && c.sent[k].url == Normalise(url, options.noUrlRegex).value
      ensures |c.sent| <= |responses| && |c.sleeps| <= |c.sent|
      ensures NonEmptyDict(options.headers) ==> c == Call(Raised(HeadersKeyError), [], [])
      ensures !NonEmptyDict(options.headers) && Normalise(url, options.noUrlRegex).Failure? ==>
        c == Call(Raised(InvalidUrl), [], [])
      ensures !NonEmptyDict(options.headers) && options.noUrlRegex ==> c == Call(Raised(InvalidUrl), [], [])
      ensures !NonEmptyDict(options.headers) && Normalise(url, options.noUrlRegex).Success? ==>
        var t := Loop(tries, Policy(options.returnOn, options.raw, handleRatelimit), responses, UnboundResponse);
        c.outcome == t.outcome && |c.sent| == t.requests && c.sleeps == t.sleeps
      ensures tries.Some? ==> |c.sent| <= if tries.value > 0 then tries.value else 0
    {
      match MergeHeaders(options.headers, AuthorizationHeaders(None, true).headers)
      case Failure(e) => Call(Raised(e), [], [])
      case Success(headers) =>
        match Normalise(url, options.noUrlRegex)
        case Failure(e) => Call(Raised(e), [], [])
        case Success(target) =>
          var t := Loop(tries, Policy(options.returnOn, options.raw, handleRatelimit), responses, UnboundResponse);
          var request := HttpRequest(verb, target, headers, options.payload);
          RepeatSends(request, t.requests);
          Call(t.outcome, Repeat(request, t.requests), t.sleeps)
    }

    /**
     `_request`: merge the headers, normalise the URL, then loop: send the
     request, decode the body, and end the call or sleep and go round again,
     decrementing a try count when there is one. `sleeps` is the log of
     `time.sleep` durations.
     */
    method Request(verb: string, url: string, options: Options, responses: seq<Response>)
      returns (outcome: Outcome, sent: seq<HttpRequest>, sleeps: seq<nat>)
      requires Valid()
      ensures Call(outcome, sent, sleeps) == Dispatch(verb, url, options, responses)
    {
      var headers := MergeHeaders(options.headers, AuthorizationHeaders(None, true).headers);
      if headers.Failure? {
        return Raised(headers.error), [], [];
      }
      var target := Normalise(url, options.noUrlRegex);
      if target.Failure? {
        return Raised(target.error), [], [];
      }
      var request := HttpRequest(verb, target.value, headers.value, options.payload);
      var p := Policy(options.returnOn, options.raw, handleRatelimit);
      var requests: nat;
      outcome, requests, sleeps := Retrying(p, responses);
      sent := Repeat(request, requests);
    }

    /**
     The `while` loop of `_request` (lines 96-138): send, decode, classify,
     and either end the call or sleep `Retry-After` seconds and go round
     again, decrementing the try count when there is one. `requests` counts
     the requests sent and `sleeps` logs the `time.sleep` durations.
     */
    method Retrying(p: Policy, responses: seq<Response>) returns (outcome: Outcome, requests: nat, sleeps: seq<nat>)
      ensures Trace(outcome, requests, sleeps) == Loop(this.tries, p, responses, UnboundResponse)
    {
      ghost var whole := Loop(this.tries, p, responses, UnboundResponse);
      var tries := this.tries;
      // what line 138 raises once the loop condition fails: nothing is bound
      // before the first response, TooManyRequests(r, js) after a retry
      var exit := UnboundResponse;
      requests, sleeps := 0, [];
      assert responses[0..] == responses;
      ghost var rest := whole;
      while tries.None? || tries.value > 0
        invariant 0 <= requests <= |responses|
        invariant rest == Loop(tries, p, responses[requests..], exit)
        invariant whole == Trace(rest.outcome, requests + rest.requests, sleeps + rest.sleeps)
        decreases |responses| - requests
      {
        if requests == |responses| {
          assert rest == Trace(Raised(TransportExhausted), 0, []);
          return Raised(TransportExhausted), requests, sleeps;
        }
        ghost var pending := responses[requests..];
        var r := responses[requests];
        assert pending[0] == r && pending[1..] == responses[requests + 1..];
        requests := requests + 1;
        var step := Examine(r, p);
        if step.Done? {
          LoopFinishes(tries, p, pending, exit);
          assert sleeps + [] == sleeps;
          return step.outcome, requests, sleeps;
        }
        var js, seconds := r.json.value, step.seconds;
        LoopSleeps(tries, p, pending, exit, js, seconds);
        rest := Loop(Decrement(tries), p, responses[requests..], TooManyRequests(r, js));
        assert sleeps + ([seconds] + rest.sleeps) == (sleeps + [seconds]) + rest.sleeps;
        sleeps := sleeps + [seconds];
        exit := TooManyRequests(r, js);
        if tries.Some? && tries.value != 0 {
          tries := Some(tries.value - 1);
        }
      }
      assert sleeps + [] == sleeps;
      outcome := Raised(exit);
    }

    /**
     `ocr(source)` up to the decoded body: a POST to `/api/ocr` carrying the
     URL as a query parameter or the bytes as an upload, or
     OpenRobotAPIError for any other source without a request.
     */
    method Ocr(source: OcrSource, responses: seq<Response>)
      returns (outcome: Outcome, sent: seq<HttpRequest>, sleeps: seq<nat>)
      requires Valid()
      ensures source.OtherSource? ==> outcome == Raised(InvalidOcrSource) && sent == [] && sleeps == []
      ensures forall k :: 0 <= k < |sent| ==>
        sent[k].verb == "POST" && sent[k].url == "https://api.openrobot.xyz/api/ocr"
        && sent[k].headers == map["Authorization" := token] && sent[k].headers["Authorization"] != ""
      ensures source.UrlSource? ==> forall k :: 0 <= k < |sent| ==> sent[k].payload == Params(map["url" := source.url])
      ensures source.BytesSource? ==> forall k :: 0 <= k < |sent| ==> sent[k].payload == Upload("upload_file", source.content)
      ensures !source.OtherSource? ==>
        Call(outcome, sent, sleeps) == Dispatch("POST", "/api/ocr", OcrOptions(source).value, responses)
    {
      var options := OcrOptions(source);
      if options.Failure? {
        return Raised(options.error), [], [];
      }
      ApiPathNormalises("/api/ocr");
      outcome, sent, sleeps := Request("POST", "/api/ocr", options.value, responses);
    }
  }

  /**
   A client built with `tries` zero or negative sends nothing: once headers
   and URL pass, line 138 finds `r` unbound.
   */
  lemma NonPositiveTriesNeverSend(c: SyncClient, verb: string, url: string, options: Options, responses: seq<Response>)
    requires c.Valid() && c.tries.Some? && c.tries.value <= 0
    requires !NonEmptyDict(options.headers) && !options.noUrlRegex && !MatchesHostPattern(Stripped(url))
    ensures c.Dispatch(verb, url, options, responses) == Call(Raised(UnboundResponse), [], [])
  {
  }

}
