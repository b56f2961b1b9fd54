/**
 * The part of the HTTP, URL and JSON libraries the client touches, as values and
 * uninterpreted functions: the request object whose headers are set in place,
 * the snapshot of a request as the transport receives it, the transport's
 * outcome, decoder outcomes, and the client's error values.
 */
module Http {
  import opened Wrappers
  import Errors

  type Bytes = seq<bv8>

  /** A header or query map: every key holds a list of values. */
  type Values = map<string, seq<string>>

  const MethodGet := "GET"
  const MethodPost := "POST"
  const StatusOK := 200

  /** What a request carries as its body. */
  datatype Body =
    | NoBody
    | BytesReader(data: Bytes)
      /** The read end of a pipe fed by a background writer of a multipart form
          with one file part named `field` holding the file `filename`, whose
          content is `image`. */
    | MultipartPipe(field: string, filename: string, image: Bytes)

  /** A request as the transport receives it. */
  datatype Outbound = Outbound(verb: string, url: string, body: Body, header: Values)

  /** The transport implementation a client holds: the library default with its timeout, or one injected by the caller. */
  datatype HttpClient = DefaultHttpClient(timeoutSeconds: nat) | CustomHttpClient(name: string)

  /** The outcome of handing a request to the transport. */
  datatype TransportOutcome = TransportErr(cause: string) | Resp(statusCode: int, body: Bytes)

  /** The outcome of decoding a JSON body into some shape. */
  datatype Decoded<+T> = DecodeOk(value: T) | DecodeErr(cause: string)

  /** The JSON error envelope `{"status": <int>, "message": <string>}` of a non-200 reply. */
  datatype Envelope = Envelope(status: int, message: string)

  /** A parsed URL: its raw query and, kept opaque, everything else it holds. */
  datatype URL = URL(rest: string, rawQuery: string)

  /** The phase a wrapped error names, each with the prefix of its text. */
  datatype Phase =
    | ParsingBaseURL
    | EncodingRequestBody
    | CreatingRequest
    | SendingRequest
    | DecodingErrorResponse
    | DecodingResponse
  {
    /** The text `fmt.Errorf` puts before the cause: the phase's name, a colon and a space. */
    function Prefix(): (p: string)
      ensures |p| > 2 && p[|p| - 2..] == ": "
    {
      match this
      case ParsingBaseURL => "parsing base URL: "
      case EncodingRequestBody => "encoding request body: "
      case CreatingRequest => "creating request: "
      case SendingRequest => "sending request: "
      case DecodingErrorResponse => "decoding error response: "
      case DecodingResponse => "decoding response: "
    }
  }

  /**
   * An error an operation returns: a typed API error from the mapper, or a
   * library error wrapped with the phase that failed.
   */
  datatype Failure = ApiError(error: Errors.Error) | Wrapped(phase: Phase, cause: string) {
    /** The error's `Error()` text: the API error's own text, or the phase's prefix and then the cause's text. */
    function Text(): (s: string)
      ensures ApiError? ==> Errors.Parse(s) == Some(error)
      ensures Wrapped? ==> |s| >= |phase.Prefix()| && s[..|phase.Prefix()|] == phase.Prefix() && s[|phase.Prefix()|..] == cause
    {
      match this
      case ApiError(e) => Errors.TextParsesBack(e); e.Text()
      case Wrapped(p, c) => p.Prefix() + c
    }
  }

  /**
   * No phase's prefix begins another's, so the text of a wrapped error names
   * the phase that failed and the cause's text unambiguously.
   */
  lemma {:induction false} WrappedTextDetermines(p: Phase, q: Phase, c: string, d: string)
    requires Wrapped(p, c).Text() == Wrapped(q, d).Text()
    ensures p == q && c == d
  {
    var s := Wrapped(p, c).Text();
    // The characters at positions 0 and 9 already tell the six prefixes apart.
    assert |p.Prefix()| > 9 && |q.Prefix()| > 9;
    assert p.Prefix()[0] == s[0] == q.Prefix()[0];
    assert p.Prefix()[9] == s[9] == q.Prefix()[9];
    assert c == s[|p.Prefix()|..] == d;
  }

  /** The library functions the operations call, none of which is modelled further. */
  datatype Library = Library(
    parseURL: string -> Result<URL, string>,            // url.Parse
    parseQuery: string -> Values,                        // url.ParseQuery, as (*url.URL).Query applies it
    encodeQuery: Values -> string,                       // url.Values.Encode
    formatURL: URL -> string,                            // (*url.URL).String
    marshalJSON: map<string, string> -> Result<Bytes, string>, // json.Marshal
    requestError: (string, string) -> Option<string>,   // http.NewRequestWithContext's failure for a method and URL
    decodeEnvelope: Bytes -> Decoded<Envelope>)          // json decoding of the error envelope

  /** One call of `Do`: the transport it went through and the request it carried. */
  datatype Call = Call(client: HttpClient, request: Outbound)

  /**
   * The transports the client may hold, as one object: `respond` is what a
   * transport answers to a request as the given call in order, so a remote
   * server may answer the same request differently each time; `log` records
   * every call of `Do`.
   */
  class Network {
    const respond: (nat, HttpClient, Outbound) -> TransportOutcome
    var log: seq<Call>

    constructor (respond: (nat, HttpClient, Outbound) -> TransportOutcome)
      ensures this.respond == respond && log == []
    {
      this.respond := respond;
      log := [];
    }

    /** `HTTPClient.Do`: sends the request through the given transport and answers with its outcome. */
    method Do(client: HttpClient, req: Outbound) returns (o: TransportOutcome)
      modifies this
      ensures log == old(log) + [Call(client, req)]
      ensures o == respond(|old(log)|, client, req)
    {
      o := respond(|log|, client, req);
      log := log + [Call(client, req)];
    }
  }

  /** An outbound HTTP request whose header map is updated in place. */
  class Request {
    const verb: string
    const url: string
    const body: Body
    var header: Values

    constructor (verb: string, url: string, body: Body)
      ensures this.verb == verb && this.url == url && this.body == body
      ensures header == map[]
    {
      this.verb := verb;
      this.url := url;
      this.body := body;
      header := map[];
    }

    /** `Header.Set`: the key ends up with the single given value, replacing any earlier ones. */
    method Set(key: string, value: string)
      modifies this
      ensures header == old(header)[key := [value]]
    {
      header := header[key := [value]];
    }

    function Snapshot(): Outbound
      reads this
    {
      Outbound(verb, url, body, header)
    }
  }
}
