/**
 * The client: its configuration, the defaults it starts from, the options
 * applied in order at construction, and the decoration every request gets
 * (bearer token and user agent).
 */
module Client {
  import opened Wrappers
  import opened Http

  const DefaultBaseURL := "https://developer.easyslip.com/api/v1"
  const DefaultUserAgent := "easyslip-go/1.0.0"

  /** The library HTTP client with a 30-second timeout. */
  const DefaultTransport := DefaultHttpClient(30)

  /** A configuration override passed to the constructor. */
  datatype ClientOption =
    | WithBaseURL(url: string)
    | WithHTTPClient(httpClient: HttpClient)
    | WithUserAgent(userAgent: string)

  /** The value of a client's four fields. */
  datatype Config = Config(baseURL: string, httpClient: HttpClient, token: string, userAgent: string)

  /** The configuration `NewClient` starts from: the given token and the library's defaults for everything else. */
  function Defaults(token: string): (cfg: Config)
    ensures cfg.token == token
    ensures cfg.baseURL == DefaultBaseURL && cfg.userAgent == DefaultUserAgent
    ensures cfg.httpClient == DefaultHttpClient(30)
  {
    Config(DefaultBaseURL, DefaultTransport, token, DefaultUserAgent)
  }

  const VerifyPath := "/verify"
  const TrueWalletPath := "/verify/truewallet"

  /** The URL of an API path under the configured base URL. */
  function Endpoint(baseURL: string, path: string): (u: string)
    ensures |u| == |baseURL| + |path|
    ensures u[..|baseURL|] == baseURL && u[|baseURL|..] == path
  {
    baseURL + path
  }

  /** What one option does to a configuration; no option touches the token. */
  function ApplyOption(cfg: Config, opt: ClientOption): (r: Config)
    ensures r.token == cfg.token
  {
    match opt
    case WithBaseURL(url) => cfg.(baseURL := url)
    case WithHTTPClient(h) => cfg.(httpClient := h)
    case WithUserAgent(ua) => cfg.(userAgent := ua)
  }

  /** The options applied one after another, first to last; the token survives them all. */
  function ApplyAll(cfg: Config, opts: seq<ClientOption>): (r: Config)
    ensures r.token == cfg.token
    decreases |opts|
  {
    if opts == [] then cfg else ApplyOption(ApplyAll(cfg, opts[..|opts| - 1]), opts[|opts| - 1])
  }

  /** The headers `newRequest` sets on a fresh request: two, each with a single value. */
  function Decoration(token: string, userAgent: string): (h: Values)
    ensures h.Keys == {"Authorization", "User-Agent"}
    ensures forall k | k in h :: |h[k]| == 1
    ensures h["Authorization"][0] == "Bearer " + token && h["User-Agent"][0] == userAgent
  {
    map["Authorization" := ["Bearer " + token], "User-Agent" := [userAgent]]
  }

  /**
   * Setting a content type after decoration adds that one header and leaves the
   * authorization and user-agent headers as they were, each with one value.
   */
  lemma ContentTypeKeepsDecoration(token: string, userAgent: string, contentType: string)
    ensures var h := Decoration(token, userAgent)["Content-Type" := [contentType]];
      && h.Keys == {"Authorization", "User-Agent", "Content-Type"}
      && h["Authorization"] == ["Bearer " + token]
      && h["User-Agent"] == [userAgent]
      && h["Content-Type"] == [contentType]
  {
  }

  /** Each option changes its own field, to its argument, and nothing else. */
  lemma OptionChangesOnlyItsField(cfg: Config, opt: ClientOption)
    ensures ApplyOption(cfg, opt).token == cfg.token
    ensures ApplyOption(cfg, opt).baseURL == if opt.WithBaseURL? then opt.url else cfg.baseURL
    ensures ApplyOption(cfg, opt).httpClient == if opt.WithHTTPClient? then opt.httpClient else cfg.httpClient
    ensures ApplyOption(cfg, opt).userAgent == if opt.WithUserAgent? then opt.userAgent else cfg.userAgent
  {
  }

  /** Applying a concatenation of option lists is applying the first list, then the second. */
  lemma {:induction false} ApplyAllConcat(cfg: Config, a: seq<ClientOption>, b: seq<ClientOption>)
    ensures ApplyAll(cfg, a + b) == ApplyAll(ApplyAll(cfg, a), b)
    decreases |b|
  {
    if b == [] {
      assert a + b == a;
    } else {
      assert (a + b)[..|a + b| - 1] == a + b[..|b| - 1];
      ApplyAllConcat(cfg, a, b[..|b| - 1]);
    }
  }

  /**
   * The token is never changed, and each other field is set by the last option
   * of its kind, or keeps its starting value when there is none.
   */
  lemma {:induction false} LastOptionWins(cfg: Config, opts: seq<ClientOption>)
    ensures ApplyAll(cfg, opts).token == cfg.token
    ensures (forall i | 0 <= i < |opts| :: !opts[i].WithBaseURL?) ==> ApplyAll(cfg, opts).baseURL == cfg.baseURL
    ensures forall i | 0 <= i < |opts| && opts[i].WithBaseURL? && (forall j | i < j < |opts| :: !opts[j].WithBaseURL?) ::
      ApplyAll(cfg, opts).baseURL == opts[i].url
    ensures (forall i | 0 <= i < |opts| :: !opts[i].WithHTTPClient?) ==> ApplyAll(cfg, opts).httpClient == cfg.httpClient
    ensures forall i | 0 <= i < |opts| && opts[i].WithHTTPClient? && (forall j | i < j < |opts| :: !opts[j].WithHTTPClient?) ::
      ApplyAll(cfg, opts).httpClient == opts[i].httpClient
    ensures (forall i | 0 <= i < |opts| :: !opts[i].WithUserAgent?) ==> ApplyAll(cfg, opts).userAgent == cfg.userAgent
    ensures forall i | 0 <= i < |opts| && opts[i].WithUserAgent? && (forall j | i < j < |opts| :: !opts[j].WithUserAgent?) ::
      ApplyAll(cfg, opts).userAgent == opts[i].userAgent
    decreases |opts|
  {
    if opts != [] {
      var prefix := opts[..|opts| - 1];
      assert forall i | 0 <= i < |prefix| :: prefix[i] == opts[i];
      LastOptionWins(cfg, prefix);
    }
  }

  /** An API client; its fields are set by the constructor and read by the operations. */
  class Client {
    var baseURL: string
    var httpClient: HttpClient
    var token: string
    var userAgent: string

    function Settings(): Config
      reads this
    {
      Config(baseURL, httpClient, token, userAgent)
    }

    /** `NewClient`: the defaults with the given token, then every option in order. */
    constructor (token: string, opts: seq<ClientOption>)
      ensures Settings() == ApplyAll(Defaults(token), opts)
      ensures this.token == token
      ensures opts == [] ==> baseURL == DefaultBaseURL && userAgent == DefaultUserAgent && httpClient == DefaultTransport
    {
      baseURL := DefaultBaseURL;
      httpClient := DefaultTransport;
      this.token := token;
      userAgent := DefaultUserAgent;
      new;
      var i := 0;
      while i < |opts|
        invariant 0 <= i <= |opts|
        invariant Settings() == ApplyAll(Defaults(token), opts[..i])
      {
        assert opts[..i + 1][..i] == opts[..i];
        Apply(opts[i]);
        i := i + 1;
      }
      assert opts[..|opts|] == opts;
    }

    /** Runs one option on this client. */
    method Apply(opt: ClientOption)
      modifies this
      ensures Settings() == ApplyOption(old(Settings()), opt)
    {
      match opt
      case WithBaseURL(url) => baseURL := url;
      case WithHTTPClient(h) => httpClient := h;
      case WithUserAgent(ua) => userAgent := ua;
    }

    /**
     * `newRequest`: a fresh request for the method, URL and body carrying the
     * bearer token and the user agent, or the library's failure wrapped as a
     * request-creation error.
     */
    method NewRequest(lib: Library, verb: string, url: string, body: Body) returns (r: Result<Request, Failure>)
      ensures lib.requestError(verb, url).Some? ==>
        r == Failure(Wrapped(CreatingRequest, lib.requestError(verb, url).value))
      ensures lib.requestError(verb, url).None? ==>
        r.Success? && fresh(r.value) && r.value.Snapshot() == Outbound(verb, url, body, Decoration(token, userAgent))
    {
      var failure := lib.requestError(verb, url);
      if failure.Some? {
        return Failure(Wrapped(CreatingRequest, failure.value));
      }
      var req := new Request(verb, url, body);
      req.Set("Authorization", "Bearer " + token);
      req.Set("User-Agent", userAgent);
      return Success(req);
    }
  }
}
