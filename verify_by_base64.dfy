/** Verification of a slip image sent base64-encoded in a JSON body. */
module VerifyByBase64 {
  import opened Wrappers
  import opened Http
  import opened Client
  import opened Response
  import Errors

  const ImageKey := "image"
  const JsonContentType := "application/json"

  /** The object the request body encodes: the single key `image` bound to the encoded image. */
  function RequestObject(base64Image: string): (obj: map<string, string>)
    ensures obj.Keys == {ImageKey} && obj[ImageKey] == base64Image
  {
    map[ImageKey := base64Image]
  }

  /**
   * `VerifySlipByBase64`. A failure before sending leaves the transport
   * untouched; otherwise the transport is called exactly once.
   */
  method VerifySlipByBase64<V>(c: Client, net: Network, lib: Library, decodeResult: Bytes -> Decoded<V>, base64Image: string)
    returns (r: Result<V, Failure>)
    modifies net
    ensures lib.marshalJSON(RequestObject(base64Image)).Failure? ==>
      && net.log == old(net.log)
      && r == Failure(Wrapped(EncodingRequestBody, lib.marshalJSON(RequestObject(base64Image)).error))
    ensures lib.marshalJSON(RequestObject(base64Image)).Success? ==>
      var target := Endpoint(c.baseURL, VerifyPath);
      if lib.requestError(MethodPost, target).Some? then
        && net.log == old(net.log)
        && r == Failure(Wrapped(CreatingRequest, lib.requestError(MethodPost, target).value))
      else
        var req := Outbound(MethodPost, target, BytesReader(lib.marshalJSON(RequestObject(base64Image)).value),
                            Decoration(c.token, c.userAgent)["Content-Type" := [JsonContentType]]);
        && net.log == old(net.log) + [Call(c.httpClient, req)]
        && r == Receive(net.respond(|old(net.log)|, c.httpClient, req), lib.decodeEnvelope, decodeResult)
  {
    var encoded := lib.marshalJSON(RequestObject(base64Image));
    if encoded.Failure? {
      return Failure(Wrapped(EncodingRequestBody, encoded.error));
    }

    var made := c.NewRequest(lib, MethodPost, Endpoint(c.baseURL, VerifyPath), BytesReader(encoded.value));
    if made.Failure? {
      return Failure(made.error);
    }
    var req := made.value;
    req.Set("Content-Type", JsonContentType);

    var outcome := net.Do(c.httpClient, req.Snapshot());
    if outcome.TransportErr? {
      return Failure(Wrapped(SendingRequest, outcome.cause));
    }

    if outcome.statusCode != StatusOK {
      var envelope := lib.decodeEnvelope(outcome.body);
      if envelope.DecodeErr? {
        return Failure(Wrapped(DecodingErrorResponse, envelope.cause));
      }
      return Failure(ApiError(Errors.NewErrorFromMessage(envelope.value.status, envelope.value.message)));
    }

    var result := decodeResult(outcome.body);
    if result.DecodeErr? {
      return Failure(Wrapped(DecodingResponse, result.cause));
    }
    return Success(result.value);
  }
}
