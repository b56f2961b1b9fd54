/**
 * What every operation does with the transport's outcome: a transport failure
 * is wrapped; a non-200 reply has its error envelope decoded and mapped to a
 * typed error (using the envelope's status, not the HTTP status code); a 200
 * reply is decoded into the operation's success shape.
 */
module Response {
  import opened Wrappers
  import opened Http
  import opened Errors

  /** The result an operation returns for the transport's outcome; it never fails in a request-building phase. */
  function Receive<R>(outcome: TransportOutcome, decodeEnvelope: Bytes -> Decoded<Envelope>, decodeResult: Bytes -> Decoded<R>)
    : (r: Result<R, Failure>)
    ensures r.Failure? && r.error.Wrapped? ==> r.error.phase in {SendingRequest, DecodingErrorResponse, DecodingResponse}
    ensures r.Failure? && r.error.ApiError? ==> outcome.Resp? && outcome.statusCode != StatusOK
    ensures r.Success? ==> outcome.Resp? && outcome.statusCode == StatusOK
  {
    match outcome
    case TransportErr(cause) => Failure(Wrapped(SendingRequest, cause))
    case Resp(code, body) =>
      if code != StatusOK then
        match decodeEnvelope(body)
        case DecodeErr(cause) => Failure(Wrapped(DecodingErrorResponse, cause))
        case DecodeOk(env) => Failure(ApiError(NewErrorFromMessage(env.status, env.message)))
      else
        match decodeResult(body)
        case DecodeErr(cause) => Failure(Wrapped(DecodingResponse, cause))
        case DecodeOk(v) => Success(v)
  }

  /** A transport failure is wrapped as a sending error, and neither decoder is consulted. */
  lemma TransportFailureIsNotDecoded<R>(cause: string, env1: Bytes -> Decoded<Envelope>, env2: Bytes -> Decoded<Envelope>,
                                        res1: Bytes -> Decoded<R>, res2: Bytes -> Decoded<R>)
    ensures Receive(TransportErr(cause), env1, res1) == Failure(Wrapped(SendingRequest, cause))
    ensures Receive(TransportErr(cause), env1, res1) == Receive(TransportErr(cause), env2, res2)
  {
  }

  /** The mapper is reached exactly when the reply is not 200 and its envelope decodes. */
  lemma MapperOnlyOnNon200<R>(outcome: TransportOutcome, decodeEnvelope: Bytes -> Decoded<Envelope>, decodeResult: Bytes -> Decoded<R>)
    ensures var r := Receive(outcome, decodeEnvelope, decodeResult);
      (r.Failure? && r.error.ApiError?) <==>
      (outcome.Resp? && outcome.statusCode != StatusOK && decodeEnvelope(outcome.body).DecodeOk?)
  {
  }

  /**
   * A non-200 reply with a decodable envelope gives the mapper's error for the
   * envelope's status and message, whatever the HTTP status code, and never
   * looks at the success decoder.
   */
  lemma EnvelopeDrivesTypedError<R>(code: int, body: Bytes, env: Envelope, decodeEnvelope: Bytes -> Decoded<Envelope>,
                                    res1: Bytes -> Decoded<R>, res2: Bytes -> Decoded<R>)
    requires code != StatusOK && decodeEnvelope(body) == DecodeOk(env)
    ensures Receive(Resp(code, body), decodeEnvelope, res1) == Failure(ApiError(NewErrorFromMessage(env.status, env.message)))
    ensures Receive(Resp(code, body), decodeEnvelope, res1) == Receive(Resp(code, body), decodeEnvelope, res2)
    ensures Receive(Resp(code, body), decodeEnvelope, res1).error.error.message == env.message
    ensures env.message !in ErrorMap ==> Receive(Resp(code, body), decodeEnvelope, res1).error.error == Error(env.status, env.message)
  {
  }

  /** A non-200 reply whose envelope does not decode is a decoding error; the mapper is not called. */
  lemma UndecodableEnvelope<R>(code: int, body: Bytes, cause: string, decodeEnvelope: Bytes -> Decoded<Envelope>, decodeResult: Bytes -> Decoded<R>)
    requires code != StatusOK && decodeEnvelope(body) == DecodeErr(cause)
    ensures Receive(Resp(code, body), decodeEnvelope, decodeResult) == Failure(Wrapped(DecodingErrorResponse, cause))
  {
  }

  /**
   * A 200 reply never reaches the mapper: it yields the decoded value or a
   * decoding error, and the envelope decoder is not consulted.
   */
  lemma OkIsDecodedAsResult<R>(body: Bytes, env1: Bytes -> Decoded<Envelope>, env2: Bytes -> Decoded<Envelope>, decodeResult: Bytes -> Decoded<R>)
    ensures var r := Receive(Resp(StatusOK, body), env1, decodeResult);
      match decodeResult(body)
      case DecodeOk(v) => r == Success(v)
      case DecodeErr(cause) => r == Failure(Wrapped(DecodingResponse, cause))
    ensures Receive(Resp(StatusOK, body), env1, decodeResult) == Receive(Resp(StatusOK, body), env2, decodeResult)
  {
  }

  /** Only a 200 reply can succeed. */
  lemma SuccessMeansOk<R>(outcome: TransportOutcome, decodeEnvelope: Bytes -> Decoded<Envelope>, decodeResult: Bytes -> Decoded<R>)
    requires Receive(outcome, decodeEnvelope, decodeResult).Success?
    ensures outcome.Resp? && outcome.statusCode == StatusOK
    ensures decodeResult(outcome.body) == DecodeOk(Receive(outcome, decodeEnvelope, decodeResult).value)
  {
  }

  /** A reply `{"status":403,"message":"quota_exceeded"}` under any non-200 code gives the predefined quota error. */
  lemma QuotaExceededReply<R>(code: int, body: Bytes, decodeEnvelope: Bytes -> Decoded<Envelope>, decodeResult: Bytes -> Decoded<R>)
    requires code != StatusOK && decodeEnvelope(body) == DecodeOk(Envelope(403, "quota_exceeded"))
    ensures Receive(Resp(code, body), decodeEnvelope, decodeResult) == Failure(ApiError(ErrQuotaExceeded))
  {
  }
}
