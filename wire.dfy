/**
 What the client exchanges with the HTTP transport and what it hands back to
 its caller: responses, outgoing requests, the exceptions it raises and the
 two ways a call can end.
 */
module Wire {

  datatype Option<T> = None | Some(value: T)

  /** A decoded JSON document. The client never looks inside one. */
  datatype Json = Json(document: string)

  /**
   One answer of the transport: the status code, the body as decoded by
   `r.json()` (None when decoding fails) and the `Retry-After` header already
   read as an integer (None when the header is absent).
   */
  datatype Response = Response(status: int, json: Option<Json>, retryAfter: Option<int>)

  /** The request body or query that endpoint wrappers pass through `_request` untouched. */
  datatype Payload =
    | NoPayload
    | Params(query: map<string, string>)
    | Form(fields: map<string, string>)
    | Upload(field: string, content: seq<bv8>)

  /** What `s.request(method, url, **kwargs)` is given once the client's own keys are popped. */
  datatype HttpRequest = HttpRequest(verb: string, url: string, headers: map<string, string>, payload: Payload)

  /** Every exception the client raises, each with what it carries. */
  datatype Error =
    | NoTokenProvided                                 // no token given and none in the token file
    | HeadersKeyError                                 // kwargs['headers'] read after it was popped
    | InvalidUrl                                      // TypeError('URL is not a valid HTTP/HTTPs URL.')
    | JsonDecodeError(response: Response)             // r.json() failed
    | Forbidden(response: Response, body: Json)       // 403
    | BadRequest(response: Response, body: Json)      // 400
    | InternalServerError(response: Response, body: Json)  // 500
    | TooManyRequests(response: Response, body: Json)  // 429, or the tries ran out
    | ApiError(response: Response, body: Json)        // OpenRobotAPIError with .raw and .response
    | MissingRetryAfter(response: Response)           // KeyError('Retry-After header is not present.')
    | NegativeSleep(response: Response)               // time.sleep refuses a negative duration
    | UnboundResponse                                 // the loop never ran, so `r` is unbound at the end
    | TransportExhausted                              // the transport has no further answer
    | InvalidOcrSource                                // OpenRobotAPIError('source must be a URL or BytesIO.')

  datatype Result<T> = Success(value: T) | Failure(error: Error)

  /** What a successful call returns: the response itself when `raw` is set, else its decoded body. */
  datatype Reply = RawReply(response: Response) | JsonReply(body: Json)

  datatype Outcome = Returned(reply: Reply) | Raised(error: Error)
}
