/** Verification of a slip by the payload string read from its QR code: a GET with the payload in the query. */
module VerifyByPayload {
  import opened Wrappers
  import opened Http
  import opened Client
  import opened Response
  import Errors

  const PayloadKey := "payload"

  /**
   * `query.Set("payload", payload)`: afterwards the query holds exactly one
   * payload value, the input, and every other key as it was.
   */
  function WithPayload(query: Values, payload: string): (q: Values)
    ensures q.Keys == query.Keys + {PayloadKey}
    ensures q[PayloadKey] == [payload]
    ensures forall k | k in query && k != PayloadKey :: q[k] == query[k]
  {
    query[PayloadKey := [payload]]
  }

  /**
   * `VerifySlipByPayload`. The request goes to the URL formatted from the parsed
   * endpoint whose raw query is replaced by the encoding of its query with the
   * payload set. A failure before sending leaves the transport untouched;
   * otherwise the transport is called exactly once.
   */
  method VerifySlipByPayload<V>(c: Client, net: Network, lib: Library, decodeResult: Bytes -> Decoded<V>, payload: string)
    returns (r: Result<V, Failure>)
    modifies net
    ensures lib.parseURL(Endpoint(c.baseURL, VerifyPath)).Failure? ==>
      && net.log == old(net.log)
      && r == Failure(Wrapped(ParsingBaseURL, lib.parseURL(Endpoint(c.baseURL, VerifyPath)).error))
    ensures lib.parseURL(Endpoint(c.baseURL, VerifyPath)).Success? ==>
      var endpoint := lib.parseURL(Endpoint(c.baseURL, VerifyPath)).value;
      var query := WithPayload(lib.parseQuery(endpoint.rawQuery), payload);
      var target := lib.formatURL(endpoint.(rawQuery := lib.encodeQuery(query)));
      if lib.requestError(MethodGet, target).Some? then
        && net.log == old(net.log)
        && r == Failure(Wrapped(CreatingRequest, lib.requestError(MethodGet, target).value))
      else
        var req := Outbound(MethodGet, target, NoBody, Decoration(c.token, c.userAgent));
        && net.log == old(net.log) + [Call(c.httpClient, req)]
        && r == Receive(net.respond(|old(net.log)|, c.httpClient, req), lib.decodeEnvelope, decodeResult)
  {
    var parsed := lib.parseURL(Endpoint(c.baseURL, VerifyPath));
    if parsed.Failure? {
      return Failure(Wrapped(ParsingBaseURL, parsed.error));
    }
    var endpoint := parsed.value;

    var query := lib.parseQuery(endpoint.rawQuery);
    query := WithPayload(query, payload);
    endpoint := endpoint.(rawQuery := lib.encodeQuery(query));

    var made := c.NewRequest(lib, MethodGet, lib.formatURL(endpoint), NoBody);
    if made.Failure? {
      return Failure(made.error);
    }
    var req := made.value;

    var outcome := net.Do(c.httpClient, req.Snapshot());
    if outcome.TransportErr? {
      return Failure(Wrapped(SendingRequest, outcome.cause));
    }

    if outcome.statusCode != StatusOK {
      var envelope := lib.decodeEnvelope(outcome.body);
      if envelope.DecodeErr? {
        return Failure(Wrapped(DecodingErrorResponse, envelope.cause));
      }
      return Failure(ApiError(Errors.NewErrorFromMessage(envelope.value.status, envelope.value.message)));
    }

    var result := decodeResult(outcome.body);
    if result.DecodeErr? {
      return Failure(Wrapped(DecodingResponse, result.cause));
    }
    return Success(result.value);
  }
}
