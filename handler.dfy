/**
  The per-request decision of the Lambda handler: the shared-secret header
  check, then the allow-list check on the `url` query parameter, then one GET
  to `https://` + target whose status code is relayed with its reason phrase.

  The configuration the handler reads is an explicit `Config` value, and the
  network is an oracle `get` from the full outbound URL to what the upstream
  did: a transport failure or a status code.
 */
module Handler {
  import opened GoMaps
  import opened Http
  import opened Allowlist

  const TextPlain := "text/plain"
  const Scheme := "https://"

  datatype ResponseHeaders = ResponseHeaders(contentType: string)

  datatype Response = Response(
    statusCode: int,
    statusDescription: string,
    headers: ResponseHeaders,
    body: string)

  /** The three settings the handler reads: the allow-list and the expected header. */
  datatype Config = Config(
    allowedURLs: set<string>,
    expectedHeaderKey: string,
    expectedHeaderValue: string)

  /** The parts of a function-URL event the handler reads. */
  datatype Event = Event(
    headers: map<string, string>,
    queryStringParameters: map<string, string>)

  /** What a GET to the upstream gave back. */
  datatype UpstreamResult = TransportError | Status(code: int)

  /** The fixed rejection: 403, "Forbidden", plain text. */
  function RespondForbidden(): (r: Response)
    ensures r.statusCode == StatusForbidden
    ensures r.statusDescription == "Forbidden" && r.body == "Forbidden"
    ensures r.headers.contentType == TextPlain
  {
    Response(StatusForbidden, StatusText(StatusForbidden), ResponseHeaders(TextPlain), "Forbidden")
  }

  /** The value the request carries under exactly the configured header name. */
  function HeaderValue(cfg: Config, event: Event): string {
    Lookup(event.headers, cfg.expectedHeaderKey)
  }

  /** The header gate: a missing header reads as "", so it matches an empty expected value. */
  predicate HeaderCheckPasses(cfg: Config, event: Event)
    ensures HeaderCheckPasses(cfg, event) <==>
              if cfg.expectedHeaderKey in event.headers
              then event.headers[cfg.expectedHeaderKey] == cfg.expectedHeaderValue
              else cfg.expectedHeaderValue == ""
  {
    HeaderValue(cfg, event) == cfg.expectedHeaderValue
  }

  /** The requested target: the query parameter `url`, "" when it is absent. */
  function UpstreamUrl(event: Event): string {
    Lookup(event.queryStringParameters, "url")
  }

  /** Both checks pass: the request reaches the upstream. */
  predicate Admitted(cfg: Config, event: Event)
    ensures Admitted(cfg, event) ==> HeaderCheckPasses(cfg, event)
    ensures Admitted(cfg, event) <==>
              HeaderCheckPasses(cfg, event) &&
              if "url" in event.queryStringParameters
              then event.queryStringParameters["url"] in cfg.allowedURLs
              else "" in cfg.allowedURLs
  {
    HeaderCheckPasses(cfg, event) && IsAllowedURL(UpstreamUrl(event), cfg.allowedURLs)
  }

  /** The outbound URL: the target behind the fixed HTTPS scheme. */
  function FullUrl(url: string): (full: string)
    ensures |full| == |Scheme| + |url|
    ensures full[..|Scheme|] == Scheme && full[|Scheme|..] == url
  {
    Scheme + url
  }

  /** `httpGetReturnStatusCode`: one GET; a transport failure becomes 500. */
  function HttpGetReturnStatusCode(url: string, get: string -> UpstreamResult): (status: int)
    ensures get(Scheme + url) == TransportError ==> status == StatusInternalServerError
    ensures get(Scheme + url).Status? ==> status == get(Scheme + url).code
  {
    match get(FullUrl(url))
    case TransportError => StatusInternalServerError
    case Status(code) => code
  }

  /**
    The response that relays an upstream status code: the code itself with
    its reason phrase as description and body. A relayed 403 is the very
    response a rejection gives.
   */
  function RelayStatus(status: int): (r: Response)
    ensures r.statusCode == status && r.headers.contentType == TextPlain
    ensures r.statusDescription == r.body == StatusText(status)
    ensures status == StatusForbidden ==> r == RespondForbidden()
  {
    Response(status, StatusText(status), ResponseHeaders(TextPlain), StatusText(status))
  }

  /**
    `HandleRequest`: every outcome is a plain-text response whose description
    and body are both the reason phrase of its code; a request that fails
    either check gets the fixed 403, one that passes both gets the upstream's
    code, or 500 when the upstream could not be reached.
   */
  function HandleRequest(cfg: Config, event: Event, get: string -> UpstreamResult): (r: Response)
    ensures r.headers.contentType == TextPlain
    ensures r.statusDescription == r.body == StatusText(r.statusCode)
    ensures !Admitted(cfg, event) ==> r == RespondForbidden()
    ensures Admitted(cfg, event) ==>
              match get(Scheme + UpstreamUrl(event))
              case TransportError => r.statusCode == StatusInternalServerError
              case Status(code) => r.statusCode == code
  {
    var headerValue := HeaderValue(cfg, event);
    if headerValue != cfg.expectedHeaderValue then
      RespondForbidden()
    else
      var upstreamUrl := UpstreamUrl(event);
      if !IsAllowedURL(upstreamUrl, cfg.allowedURLs) then
        RespondForbidden()
      else
        RelayStatus(HttpGetReturnStatusCode(upstreamUrl, get))
  }

  // ---------------------------------------------------------------------------
  // The header gate

  /**
    With no name and no value configured the gate passes, unless the request
    itself carries a non-empty header whose name is the empty string.
   */
  lemma EmptyKeyAndValuePass(cfg: Config, event: Event)
    requires cfg.expectedHeaderKey == "" && cfg.expectedHeaderValue == ""
    ensures HeaderCheckPasses(cfg, event) <==> ("" in event.headers ==> event.headers[""] == "")
  {
  }

  /** With a name but an empty value, a request without that header passes the gate. */
  lemma EmptyValuePassesWhenHeaderAbsent(cfg: Config, event: Event)
    requires cfg.expectedHeaderValue == ""
    requires cfg.expectedHeaderKey !in event.headers
    ensures HeaderCheckPasses(cfg, event)
  {
  }

  /**
    A non-empty expected value is only matched by a header stored under
    exactly the configured name with exactly that value: any other spelling
    of the name (a lower-case variant, say) or any other value is rejected
    with the fixed 403, whatever the target.
   */
  lemma HeaderMismatchForbidden(cfg: Config, event: Event, get: string -> UpstreamResult)
    requires cfg.expectedHeaderValue != ""
    requires cfg.expectedHeaderKey !in event.headers ||
             event.headers[cfg.expectedHeaderKey] != cfg.expectedHeaderValue
    ensures HandleRequest(cfg, event, get) == RespondForbidden()
  {
  }

  /**
    An empty configured name does not switch the gate off: with a non-empty
    value, the request is admitted only if it carries a header named "" with
    that value and an allowed target.
   */
  lemma EmptyKeyStillChecksValue(cfg: Config, event: Event, get: string -> UpstreamResult)
    requires cfg.expectedHeaderKey == "" && cfg.expectedHeaderValue != ""
    ensures HandleRequest(cfg, event, get) != RespondForbidden() ==>
              "" in event.headers && event.headers[""] == cfg.expectedHeaderValue
  {
  }

  // ---------------------------------------------------------------------------
  // The target and the order of the checks

  /**
    Only the query key `url` names the target: a missing key reads as the
    empty target, which is rejected unless "" is itself on the list.
   */
  lemma MissingUrlKeyActsAsEmpty(cfg: Config, event: Event, get: string -> UpstreamResult)
    requires "url" !in event.queryStringParameters
    requires "" !in cfg.allowedURLs
    ensures HandleRequest(cfg, event, get) == RespondForbidden()
  {
  }

  /** A target that is not exactly on the list is rejected whatever the headers say. */
  lemma TargetNotListedForbidden(cfg: Config, event: Event, get: string -> UpstreamResult)
    requires UpstreamUrl(event) !in cfg.allowedURLs
    ensures HandleRequest(cfg, event, get) == RespondForbidden()
  {
  }

  /**
    The header check comes first: once it fails, the query parameters are not
    looked at, so any two requests with the same headers get the same 403.
   */
  lemma HeaderCheckPrecedesTarget(cfg: Config, event: Event, other: Event, get: string -> UpstreamResult)
    requires !HeaderCheckPasses(cfg, event)
    requires other.headers == event.headers
    ensures HandleRequest(cfg, event, get) == HandleRequest(cfg, other, get) == RespondForbidden()
  {
  }

  /**
    The response depends on the request only through the header under the
    configured name and the `url` parameter.
   */
  lemma OnlyHeaderAndUrlMatter(cfg: Config, event: Event, other: Event, get: string -> UpstreamResult)
    requires HeaderValue(cfg, event) == HeaderValue(cfg, other)
    requires UpstreamUrl(event) == UpstreamUrl(other)
    ensures HandleRequest(cfg, event, get) == HandleRequest(cfg, other, get)
  {
  }

  // ---------------------------------------------------------------------------
  // The upstream call

  /**
    A rejected request never reaches the upstream: its response is the same
    whatever the upstream would have done.
   */
  lemma RejectedNeverCallsUpstream(cfg: Config, event: Event, get: string -> UpstreamResult, get': string -> UpstreamResult)
    requires !Admitted(cfg, event)
    ensures HandleRequest(cfg, event, get) == HandleRequest(cfg, event, get') == RespondForbidden()
  {
  }

  /**
    An admitted request asks the upstream one thing only, the outbound URL
    `https://` + target: upstreams that agree there give the same response.
   */
  lemma OnlyOutboundUrlIsRequested(cfg: Config, event: Event, get: string -> UpstreamResult, get': string -> UpstreamResult)
    requires get(FullUrl(UpstreamUrl(event))) == get'(FullUrl(UpstreamUrl(event)))
    ensures HandleRequest(cfg, event, get) == HandleRequest(cfg, event, get')
  {
  }

  /** A transport failure cannot be told apart from an upstream that answered 500. */
  lemma TransportErrorLooksLike500(cfg: Config, event: Event, get: string -> UpstreamResult, get': string -> UpstreamResult)
    requires get(FullUrl(UpstreamUrl(event))) == TransportError
    requires get'(FullUrl(UpstreamUrl(event))) == Status(StatusInternalServerError)
    ensures HandleRequest(cfg, event, get) == HandleRequest(cfg, event, get')
    ensures Admitted(cfg, event) ==>
              HandleRequest(cfg, event, get) ==
              Response(500, "Internal Server Error", ResponseHeaders(TextPlain), "Internal Server Error")
  {
  }

  /**
    An admitted request relays the upstream's code unchanged, with its reason
    phrase as description and body.
   */
  lemma AdmittedRelaysStatus(cfg: Config, event: Event, get: string -> UpstreamResult, code: int)
    requires Admitted(cfg, event)
    requires get(FullUrl(UpstreamUrl(event))) == Status(code)
    ensures HandleRequest(cfg, event, get) == Response(code, StatusText(code), ResponseHeaders(TextPlain), StatusText(code))
    ensures code == 400 ==> HandleRequest(cfg, event, get).body == "Bad Request"
  {
  }

  /** A status other than 403 can only come from a request that passed both checks. */
  lemma Non403MeansAdmitted(cfg: Config, event: Event, get: string -> UpstreamResult)
    requires HandleRequest(cfg, event, get).statusCode != StatusForbidden
    ensures HeaderCheckPasses(cfg, event)
    ensures UpstreamUrl(event) in cfg.allowedURLs
  {
  }
}
