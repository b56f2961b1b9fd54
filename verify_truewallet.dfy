/**
 * Verification of a TrueMoney Wallet slip image, uploaded as a multipart form
 * streamed through a pipe. Only the request and response path is modelled: the
 * body is the read end of the pipe, whose writer runs concurrently.
 */
module VerifyTrueWallet {
  import opened Wrappers
  import opened Http
  import opened Client
  import opened Response
  import Errors

  const FileField := "file"
  const FormDataType := "multipart/form-data"
  const BoundaryParam := "; boundary="

  /** The multipart writer's content type: the form-data media type with the writer's boundary as parameter. */
  function FormDataContentType(boundary: string): (t: string)
    ensures |t| == |FormDataType| + |BoundaryParam| + |boundary|
    ensures t[..|FormDataType|] == FormDataType && t[|t| - |boundary|..] == boundary
    ensures t[|FormDataType|..|FormDataType| + |BoundaryParam|] == BoundaryParam
  {
    FormDataType + BoundaryParam + boundary
  }

  /**
   * `VerifyTrueWalletSlip`, with `image` the bytes the image reader yields and
   * `boundary` the multipart writer's random boundary. A failure to build the request leaves the transport untouched;
   * otherwise the transport is called exactly once.
   */
  method VerifyTrueWalletSlip<W>(c: Client, net: Network, lib: Library, decodeResult: Bytes -> Decoded<W>,
                                 image: Bytes, filename: string, boundary: string)
    returns (r: Result<W, Failure>)
    modifies net
    ensures lib.requestError(MethodPost, Endpoint(c.baseURL, TrueWalletPath)).Some? ==>
      && net.log == old(net.log)
      && r == Failure(Wrapped(CreatingRequest, lib.requestError(MethodPost, Endpoint(c.baseURL, TrueWalletPath)).value))
    ensures lib.requestError(MethodPost, Endpoint(c.baseURL, TrueWalletPath)).None? ==>
      var req := Outbound(MethodPost, Endpoint(c.baseURL, TrueWalletPath), MultipartPipe(FileField, filename, image),
                          Decoration(c.token, c.userAgent)["Content-Type" := [FormDataContentType(boundary)]]);
      && net.log == old(net.log) + [Call(c.httpClient, req)]
      && r == Receive(net.respond(|old(net.log)|, c.httpClient, req), lib.decodeEnvelope, decodeResult)
  {
    var body := MultipartPipe(FileField, filename, image);

    var made := c.NewRequest(lib, MethodPost, Endpoint(c.baseURL, TrueWalletPath), body);
    if made.Failure? {
      return Failure(made.error);
    }
    var req := made.value;
    req.Set("Content-Type", FormDataContentType(boundary));

    var outcome := net.Do(c.httpClient, req.Snapshot());
    if outcome.TransportErr? {
      return Failure(Wrapped(SendingRequest, outcome.cause));
    }

    if outcome.statusCode != StatusOK {
      var envelope := lib.decodeEnvelope(outcome.body);
      if envelope.DecodeErr? {
        return Failure(Wrapped(DecodingErrorResponse, envelope.cause));
      }
      return Failure(ApiError(Errors.NewErrorFromMessage(envelope.value.status, envelope.value.message)));
    }

    var result := decodeResult(outcome.body);
    if result.DecodeErr? {
      return Failure(Wrapped(DecodingResponse, result.cause));
    }
    return Success(result.value);
  }
}
