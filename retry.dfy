/**
 The response handling inside the `while` loop of `SyncClient._request`:
 how one response is classified, and a reference definition of the whole
 loop over a finite stream of responses, with the properties the source
 promises about it.
 */
module Retry {
  import opened Wire

  /** The caller's pass-through statuses and raw flag, and the client's rate-limit switch. */
  datatype Policy = Policy(returnOn: seq<int>, raw: bool, handleRatelimit: bool)

  /** What one decoded response leads to: the end of the call, or a sleep before the next try. */
  datatype Step = Done(outcome: Outcome) | Sleep(seconds: nat)

  /** The run of the loop: how the call ends, how many requests it made, and the sleeps in order. */
  datatype Trace = Trace(outcome: Outcome, requests: nat, sleeps: seq<nat>)

  function ReplyFor(r: Response, js: Json, raw: bool): Reply
  {
    if raw then RawReply(r) else JsonReply(js)
  }

  /**
   One pass of the loop body after `js = r.json()` succeeded. The call
   returns exactly for a pass-through status or a 2xx status, and sleeps
   exactly on a 429 that rate-limit handling turns into a sleep; after the
   sleep the loop goes round again only while the try count allows.
   */
  function Classify(r: Response, js: Json, p: Policy): (s: Step)
    ensures s.Sleep? <==>
      r.status !in p.returnOn && r.status == 429 && p.handleRatelimit
      && r.retryAfter.Some? && r.retryAfter.value >= 0
    ensures s.Sleep? ==> s.seconds == r.retryAfter.value
    ensures s.Done? && s.outcome.Returned? <==> r.status in p.returnOn || 200 <= r.status < 300
    ensures s.Done? && s.outcome.Returned? ==> s.outcome.reply == ReplyFor(r, js, p.raw)
  {
    if r.status in p.returnOn then Done(Returned(ReplyFor(r, js, p.raw)))
    else if r.status == 403 then Done(Raised(Forbidden(r, js)))
    else if r.status == 400 then Done(Raised(BadRequest(r, js)))
    else if r.status == 500 then Done(Raised(InternalServerError(r, js)))
    else if r.status == 429 then
      if !p.handleRatelimit then Done(Raised(TooManyRequests(r, js)))
      else match r.retryAfter
        case None => Done(Raised(MissingRetryAfter(r)))
        case Some(seconds) =>
          if seconds < 0 then Done(Raised(NegativeSleep(r))) else Sleep(seconds)
    else if 200 <= r.status < 300 then Done(Returned(ReplyFor(r, js, p.raw)))
    else Done(Raised(ApiError(r, js)))
  }

  /** The loop body once a response is in: `js = r.json()`, which may fail, then `Classify`. */
  function Examine(r: Response, p: Policy): Step
  {
    match r.json
    case None => Done(Raised(JsonDecodeError(r)))
    case Some(js) => Classify(r, js, p)
  }

  /** The loop condition `tries is None or tries > 0`. */
  predicate Continues(tries: Option<int>)
  {
    tries.None? || tries.value > 0
  }

  /** `if tries: tries -= 1`, where None and 0 are falsy. */
  function Decrement(tries: Option<int>): Option<int>
  {
    if tries.Some? && tries.value != 0 then Some(tries.value - 1) else tries
  }

  /**
   The loop run on the responses `rs`, with `exit` the error line 138 raises
   if the loop condition fails now. The stream running dry stands for a
   transport that stops answering.
   */
  function Loop(tries: Option<int>, p: Policy, rs: seq<Response>, exit: Error): (t: Trace)
    decreases |rs|
    ensures t.requests <= |rs|
    ensures t.requests == |t.sleeps| || t.requests == |t.sleeps| + 1
    ensures tries.Some? ==> t.requests <= if tries.value > 0 then tries.value else 0
  {
    if !Continues(tries) then Trace(Raised(exit), 0, [])
    else if rs == [] then Trace(Raised(TransportExhausted), 0, [])
    else match Examine(rs[0], p)
      case Done(o) => Trace(o, 1, [])
      case Sleep(d) =>
        var t := Loop(Decrement(tries), p, rs[1..], TooManyRequests(rs[0], rs[0].json.value));
        Trace(t.outcome, t.requests + 1, [d] + t.sleeps)
  }

  /** One round of the loop on a response that is not retried, unfolded. */
  lemma LoopFinishes(tries: Option<int>, p: Policy, rs: seq<Response>, exit: Error)
    requires Continues(tries) && rs != [] && !Retryable(rs[0], p)
    ensures Loop(tries, p, rs, exit) == Trace(Final(rs[0], p), 1, [])
  {
  }

  /** One round of the loop that ends in a sleep, unfolded. */
  lemma LoopSleeps(tries: Option<int>, p: Policy, rs: seq<Response>, exit: Error, js: Json, seconds: nat)
    requires Continues(tries) && rs != [] && rs[0].json == Some(js) && Examine(rs[0], p) == Sleep(seconds)
    ensures var t := Loop(Decrement(tries), p, rs[1..], TooManyRequests(rs[0], js));
      Loop(tries, p, rs, exit) == Trace(t.outcome, t.requests + 1, [seconds] + t.sleeps)
  {
  }

  /** A response after which the loop sleeps and tries again. */
  predicate Retryable(r: Response, p: Policy)
  {
    Examine(r, p).Sleep?
  }

  /** How the call ends on a response that is not retried. */
  function Final(r: Response, p: Policy): Outcome
    requires !Retryable(r, p)
  {
    Examine(r, p).outcome
  }

  /**
   A status in `return_on` ends the call at once, ahead of every other rule
   (403, 429 and 500 included): one request, no sleep.
   */
  lemma PassThroughFirst(tries: Option<int>, p: Policy, rs: seq<Response>, exit: Error, js: Json)
    requires Continues(tries) && rs != [] && rs[0].json == Some(js)
    requires rs[0].status in p.returnOn
    ensures Loop(tries, p, rs, exit) == Trace(Returned(ReplyFor(rs[0], js, p.raw)), 1, [])
  {
  }

  /**
   For a status not in `return_on`, 403, 400, 500, 2xx and every other
   non-429 status end the call after exactly one request with no sleep, and
   so does a 429 when rate limits are not handled or `Retry-After` is missing.
   */
  lemma OneRequestOutcomes(tries: Option<int>, p: Policy, rs: seq<Response>, exit: Error, js: Json)
    requires Continues(tries) && rs != [] && rs[0].json == Some(js)
    requires rs[0].status !in p.returnOn
    ensures rs[0].status == 403 ==> Loop(tries, p, rs, exit) == Trace(Raised(Forbidden(rs[0], js)), 1, [])
    ensures rs[0].status == 400 ==> Loop(tries, p, rs, exit) == Trace(Raised(BadRequest(rs[0], js)), 1, [])
    ensures rs[0].status == 500 ==> Loop(tries, p, rs, exit) == Trace(Raised(InternalServerError(rs[0], js)), 1, [])
    ensures 200 <= rs[0].status < 300 ==>
      Loop(tries, p, rs, exit) == Trace(Returned(ReplyFor(rs[0], js, p.raw)), 1, [])
    ensures rs[0].status !in {400, 403, 429, 500} && !(200 <= rs[0].status < 300) ==>
      Loop(tries, p, rs, exit) == Trace(Raised(ApiError(rs[0], js)), 1, [])
    ensures rs[0].status == 429 && !p.handleRatelimit ==>
      Loop(tries, p, rs, exit) == Trace(Raised(TooManyRequests(rs[0], js)), 1, [])
    ensures rs[0].status == 429 && p.handleRatelimit && rs[0].retryAfter.None? ==>
      Loop(tries, p, rs, exit) == Trace(Raised(MissingRetryAfter(rs[0])), 1, [])
    ensures rs[0].status == 429 && p.handleRatelimit && rs[0].retryAfter.Some? && rs[0].retryAfter.value < 0 ==>
      Loop(tries, p, rs, exit) == Trace(Raised(NegativeSleep(rs[0])), 1, [])
  {
  }

  /**
   A body that `r.json()` cannot decode ends the call after one request,
   before any status is looked at, `return_on` included.
   */
  lemma UndecodableEndsCall(tries: Option<int>, p: Policy, rs: seq<Response>, exit: Error)
    requires Continues(tries) && rs != [] && rs[0].json.None?
    ensures Loop(tries, p, rs, exit) == Trace(Raised(JsonDecodeError(rs[0])), 1, [])
  {
  }

  /** With a non-positive try count the loop never runs and no request is made. */
  lemma NoTriesNoRequest(n: int, p: Policy, rs: seq<Response>, exit: Error)
    requires n <= 0
    ensures Loop(Some(n), p, rs, exit) == Trace(Raised(exit), 0, [])
  {
  }

  /**
   Every sleep is the `Retry-After` of the response at the same position,
   and every response that led to a sleep was a retryable 429.
   */
  lemma {:induction false} SleepsFollowRetryAfter(tries: Option<int>, p: Policy, rs: seq<Response>, exit: Error)
    ensures var t := Loop(tries, p, rs, exit);
      forall j :: 0 <= j < |t.sleeps| ==> Retryable(rs[j], p) && t.sleeps[j] == rs[j].retryAfter.value
    decreases |rs|
  {
    if Continues(tries) && rs != [] && Retryable(rs[0], p) {
      var js := rs[0].json.value;
      SleepsFollowRetryAfter(Decrement(tries), p, rs[1..], TooManyRequests(rs[0], js));
    }
  }

  /**
   If the first k responses are retryable 429s and the next one is not, and
   the try count allows k retries, the call ends as that response decides,
   after k + 1 requests, having slept the k `Retry-After` values in order.
   */
  lemma {:induction false} RetriesThenDecides(tries: Option<int>, p: Policy, rs: seq<Response>, k: nat, exit: Error)
    requires tries.None? || k < tries.value
    requires k < |rs|
    requires forall j :: 0 <= j < k ==> Retryable(rs[j], p)
    requires !Retryable(rs[k], p)
    ensures var t := Loop(tries, p, rs, exit);
      t.outcome == Final(rs[k], p) && t.requests == k + 1 && |t.sleeps| == k
      && forall j :: 0 <= j < k ==> Retryable(rs[j], p) && t.sleeps[j] == rs[j].retryAfter.value
    decreases k
  {
    if k > 0 {
      var js := rs[0].json.value;
      assert Retryable(rs[0], p);
      RetriesThenDecides(Decrement(tries), p, rs[1..], k - 1, TooManyRequests(rs[0], js));
    }
  }

  /**
   Without a try count, rate limits never end the call by themselves: with
   only retryable 429s the loop keeps sleeping until the transport stops
   answering.
   */
  lemma {:induction false} UnboundedOutlastsRateLimits(p: Policy, rs: seq<Response>, exit: Error)
    requires forall j :: 0 <= j < |rs| ==> Retryable(rs[j], p)
    ensures var t := Loop(None, p, rs, exit);
      t.outcome == Raised(TransportExhausted) && t.requests == |rs| && |t.sleeps| == |rs|
      && forall j :: 0 <= j < |rs| ==> Retryable(rs[j], p) && t.sleeps[j] == rs[j].retryAfter.value
  {
    if rs != [] {
      var js := rs[0].json.value;
      assert Retryable(rs[0], p);
      UnboundedOutlastsRateLimits(p, rs[1..], TooManyRequests(rs[0], js));
    }
  }

  /**
   With `tries = n > 0` and n retryable 429s in a row, the call makes exactly
   n requests, sleeps their n `Retry-After` values in order, and raises
   TooManyRequests with the last response and its body.
   */
  lemma {:induction false} BoundedRetriesExhaust(n: int, p: Policy, rs: seq<Response>, exit: Error)
    requires 0 < n <= |rs|
    requires forall j :: 0 <= j < n ==> Retryable(rs[j], p)
    ensures var t := Loop(Some(n), p, rs, exit);
      Retryable(rs[n - 1], p) && t.outcome == Raised(TooManyRequests(rs[n - 1], rs[n - 1].json.value))
      && t.requests == n && |t.sleeps| == n
      && forall j :: 0 <= j < n ==> Retryable(rs[j], p) && t.sleeps[j] == rs[j].retryAfter.value
  {
    var js := rs[0].json.value;
    assert Retryable(rs[0], p);
    if n > 1 {
      BoundedRetriesExhaust(n - 1, p, rs[1..], TooManyRequests(rs[0], js));
    }
  }
}
