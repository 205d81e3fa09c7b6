/**
  The table-driven cases of the handler's unit tests, stated over the
  configuration each case loads: a single comma-free entry loads as itself
  (`Allowlist.SingleEntryList`) and a comma-join of entries as exactly those
  entries (`Allowlist.ListRoundTrip`). The upstream is a mock that answers one
  outbound URL with one status code and fails at the transport level for
  every other URL.
 */
module Scenarios {
  import opened Http
  import GoStrings
  import opened Allowlist
  import opened Handler
  import opened Settings

  const FacebookPort := "www.facebook.com:1234/bar"
  const Localhost := "localhost:60578"

  /** An upstream that answers `url` with `code` and cannot be reached anywhere else. */
  function Mock(url: string, code: int): string -> UpstreamResult {
    (u: string) => if u == url then Status(code) else TransportError
  }

  function Query(url: string): Event {
    Event(map[], map["url" := url])
  }

  function Plain(code: int, phrase: string): Response {
    Response(code, phrase, ResponseHeaders(TextPlain), phrase)
  }

  /** The mocked upstreams answer at the URLs the handler builds. */
  lemma OutboundUrls()
    ensures FullUrl(FacebookPort) == "https://www.facebook.com:1234/bar"
    ensures FullUrl("www.facebook.com/bar") == "https://www.facebook.com/bar"
  {
  }

  /** One allowed target reached, and a target matching one of three entries reached. */
  lemma AllowedTargetsRelay200()
    ensures HandleRequest(Config({FacebookPort}, "", ""), Query(FacebookPort),
                          Mock(FullUrl(FacebookPort), 200)) == Plain(200, "OK")
    ensures HandleRequest(Config({"www.google.com/foo", "www.facebook.com/bar", "yahoo.com"}, "", ""),
                          Query("www.facebook.com/bar"),
                          Mock(FullUrl("www.facebook.com/bar"), 200)) == Plain(200, "OK")
  {
  }

  /**
    A case with `ALLOWED_URLS` set to one comma-free entry and no header
    variables, end to end: `LoadSettings`, then a request for that entry,
    relays the code the upstream answers at `https://` + entry.
   */
  lemma LoadedSingleEntryRelays(entry: string, code: int)
    requires entry != "" && GoStrings.CommaFree(entry)
    ensures HandleRequest(LoadedConfig(map[AllowedUrlsVar := entry]), Query(entry), Mock(FullUrl(entry), code))
            == Plain(code, StatusText(code))
  {
    SingleEntryList(entry);
  }

  /**
    The entry of the first case, `www.facebook.com:1234/bar`, meets the
    premise of `LoadedSingleEntryRelays`: loading it and asking for it relays
    the upstream's 200 as `{200, OK, OK}`.
   */
  lemma FacebookPortIsOneEntry()
    ensures FacebookPort != "" && GoStrings.CommaFree(FacebookPort)
    ensures StatusText(200) == "OK"
  {
  }

  /** An allowed but unreachable target gives 500. */
  lemma UnreachableUpstreamGives500()
    ensures HandleRequest(Config({Localhost}, "", ""), Query(Localhost),
                          Mock(FullUrl("elsewhere"), 200)) == Plain(500, "Internal Server Error")
  {
  }

  /** Upstream 400 and 500 pass through with their reason phrases. */
  lemma UpstreamErrorsPassThrough()
    ensures HandleRequest(Config({FacebookPort}, "", ""), Query(FacebookPort),
                          Mock(FullUrl(FacebookPort), 400)) == Plain(400, "Bad Request")
    ensures HandleRequest(Config({FacebookPort}, "", ""), Query(FacebookPort),
                          Mock(FullUrl(FacebookPort), 500)) == Plain(500, "Internal Server Error")
  {
  }

  /**
    The empty target, a target one character short of an entry, a target
    under the key `URL`, and any target under an empty list are all refused.
   */
  lemma TargetsRefused(get: string -> UpstreamResult)
    ensures HandleRequest(Config({"www.google.com/foo", "www.facebook.com/bar", "yahoo.com"}, "", ""),
                          Query(""), get) == Plain(403, "Forbidden")
    ensures HandleRequest(Config({"www.google.com/foo", "www.facebook.com/bar", "yahoo.com"}, "", ""),
                          Query("www.google.com/fo"), get) == Plain(403, "Forbidden")
    ensures HandleRequest(Config({FacebookPort}, "", ""), Event(map[], map["URL" := FacebookPort]), get)
            == Plain(403, "Forbidden")
    ensures HandleRequest(Config({}, "", ""), Query(FacebookPort), get) == Plain(403, "Forbidden")
  {
  }

  /** The header configurations under which the request is admitted. */
  lemma HeaderConfigurationsAdmitting()
    ensures HandleRequest(Config({FacebookPort}, "", ""), Query(FacebookPort),
                          Mock(FullUrl(FacebookPort), 200)) == Plain(200, "OK")
    ensures HandleRequest(Config({FacebookPort}, "TEST-HEADER", ""), Query(FacebookPort),
                          Mock(FullUrl(FacebookPort), 200)) == Plain(200, "OK")
    ensures HandleRequest(Config({FacebookPort}, "TEST-HEADER", "test-value-123"),
                          Event(map["TEST-HEADER" := "test-value-123"], map["url" := FacebookPort]),
                          Mock(FullUrl(FacebookPort), 200)) == Plain(200, "OK")
  {
  }

  /**
    The header configurations and request headers that are refused: an empty
    name with a set value, a header named "", an empty, a wrong and a
    lower-case spelling of the configured header.
   */
  lemma HeaderMismatchesRefused(get: string -> UpstreamResult)
    ensures HandleRequest(Config({FacebookPort}, "", "test-value-123"), Query(FacebookPort), get)
            == Plain(403, "Forbidden")
    ensures HandleRequest(Config({FacebookPort}, "TEST-HEADER", "test-value-123"),
                          Event(map["" := "test-value-123"], map["url" := FacebookPort]), get)
            == Plain(403, "Forbidden")
    ensures HandleRequest(Config({FacebookPort}, "TEST-HEADER", "test-value-123"),
                          Event(map["TEST-HEADER" := ""], map["url" := FacebookPort]), get)
            == Plain(403, "Forbidden")
    ensures HandleRequest(Config({FacebookPort}, "TEST-HEADER", "test-value-123"),
                          Event(map["TEST-HEADER" := "foo"], map["url" := FacebookPort]), get)
            == Plain(403, "Forbidden")
    ensures HandleRequest(Config({FacebookPort}, "TEST-HEADER", "test-value-123"),
                          Event(map["test-header" := "test-value-123"], map["url" := FacebookPort]), get)
            == Plain(403, "Forbidden")
  {
  }
}
