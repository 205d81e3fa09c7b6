# iris: a verified model of the access-gated status relay

iris is an AWS Lambda function that lets callers fetch a narrow set of
upstream URLs and see only the HTTP status code each returns. Each
invocation goes through these steps:

1. It reads the request header named exactly `EXPECTED_HEADER_KEY`. A
   missing header reads as `""`. If the value differs from
   `EXPECTED_HEADER_VALUE`, the answer is a fixed 403 `Forbidden`.
2. It reads the query parameter `url`. A missing parameter reads as `""`.
   If that string is not exactly one of the comma-separated tokens of
   `ALLOWED_URLS`, the answer is the same 403.
3. Otherwise it issues one GET to `https://` + target and relays the status
   code. A transport failure becomes 500. The reason phrase of the code
   becomes both the status description and the body.

The model is split into these modules:

- `GoStrings` (gostrings.dfy): Go's `strings.Split(s, ",")` and its inverse
  `Join`. The lemmas prove both round trips, the split at one comma, and
  that there is one more piece than there are commas.
- `GoMaps` (gomaps.dfy): reading a Go `map[string]string`, where a missing
  key reads as `""`. `os.Getenv` follows the same rule, so the environment
  is such a map.
- `Http` (http.dfy): the status codes the handler names, and the
  reason-phrase table of `http.StatusText`.
- `Allowlist` (allowlist.dfy): `getAllowedURLs` is a method whose loop
  fills a set, proved against the function `AllowedSet`. `isAllowedURL` is
  exact membership.
- `Handler` (handler.dfy): the decision of `HandleRequest`, written as a
  pure function. Its inputs are an explicit `Config`, the event, and an
  upstream oracle `get` that maps the full outbound URL to `TransportError`
  or `Status(code)`.
- `Settings` (settings.dfy): a class holding the three package variables,
  with the `LoadSettings` method and the entry point `HandleRequest`. The
  entry point answers from the current settings and always returns a nil
  error.
- `Scenarios` (scenarios.dfy): the table-driven cases of
  `src/main_test.go`. Each case is stated as the handler's answer under the
  configuration the case loads. `Allowlist.SingleEntryList` and
  `Allowlist.ListRoundTrip` give what the loader builds from the case's
  list. `LoadedSingleEntryRelays` runs the first case from the environment
  through the loader to the response.

An empty configured header name does not switch the header check off. With
an empty name, the handler reads the request header named `""`. So an empty
name with a non-empty value rejects every request that does not carry
exactly that header (`src/main_test.go:271-292`). This is shown by
`Handler.EmptyKeyStillChecksValue`.

With an empty name and an empty value, the gate passes unless the request
itself carries a non-empty header named `""`
(`Handler.EmptyKeyAndValuePass`).

## Model

| member | source | states |
|---|---|---|
| `GoStrings.Split` | src/main.go:99 | The pieces of a string between commas. There is always at least one piece, and no piece contains a comma. |
| `GoStrings.JoinSplit` | src/main.go:99 | Rejoining the pieces with commas gives the original string back, so no character is lost or added. |
| `GoStrings.SplitJoin` | src/main.go:99 | Splitting the comma-join of any non-empty list of comma-free entries gives exactly that list back. |
| `GoStrings.SplitAtComma` | src/main.go:99 | Splitting at one comma splits the two sides independently and concatenates the results. |
| `GoStrings.SplitCommaFree` | src/main.go:99 | A string without commas is a single piece. |
| `GoStrings.SplitCount` | src/main.go:99 | There is one more piece than there are commas. |
| `GoStrings.JoinEmpty` | src/main.go:98-99 | Only the list `[""]` joins to the empty string. |
| `GoStrings.DoubleCommaGivesEmptyPiece` | src/main.go:99-101 | Two neighbouring commas put an empty piece in the result. |
| `GoStrings.TrailingCommaGivesEmptyPiece` | src/main.go:99-101 | A trailing comma makes the last piece empty. |
| `GoMaps.Lookup` | src/main.go:58-66 | Reading a key of a Go string map gives the stored value when the key is present, and `""` when it is absent. |
| `Http.StatusText` | src/main.go:77-81 | Only codes from 100 to 599 have a non-empty reason phrase. |
| `Allowlist.AllowedSet` | src/main.go:96-102 | An empty value gives the empty set. Otherwise the set holds exactly the comma-separated pieces, and no entry contains a comma. |
| `Allowlist.GetAllowedURLs` | src/main.go:92-104 | The set the loop fills from the named variable equals `AllowedSet` of that variable's value. An unset variable reads as `""`. |
| `Allowlist.IsAllowedURL` | src/main.go:107-110 | A target is allowed exactly when it is a member of the loaded set. An empty set allows nothing. |
| `Allowlist.AllowedIffPiece` | src/main.go:107-110 | A target is allowed exactly when the list is non-empty and the target equals one of its pieces character for character. There is no prefix, case or slash normalisation. |
| `Allowlist.EmptyListAllowsNothing` | src/main.go:98 | An empty list allows no target, not even `""`, although splitting `""` would give the piece `""`. |
| `Allowlist.CommaTargetNeverAllowed` | src/main.go:99-100 | A target that contains a comma is never allowed. |
| `Allowlist.ListRoundTrip` | src/main.go:96-102 | A variable written as the comma-join of comma-free entries loads exactly those entries. The one exception is `[""]`, which loads nothing. |
| `Allowlist.SingleEntryList` | src/main.go:98-101 | A list of one non-empty entry without commas, such as `www.facebook.com:1234/bar`, loads as exactly that entry. |
| `Allowlist.EmptyPiecesAreAllowed` | src/main.go:99-100 | `,,` or a trailing `,` in the list puts the empty target on it. |
| `Handler.RespondForbidden` | src/main.go:126-137 | The rejection is status 403, with description `Forbidden`, body `Forbidden` and content type `text/plain`. |
| `Handler.HeaderCheckPasses` | src/main.go:58-59 | The header gate passes exactly when the header under the configured name equals the configured value. When that header is absent, the gate passes exactly when the configured value is `""`. |
| `Handler.Admitted` | src/main.go:58-67 | A request is admitted exactly when it passes the header gate and its `url` parameter is in the loaded set. A missing `url` counts as `""`. |
| `Handler.FullUrl` | src/main.go:114 | The outbound URL is `https://` followed by the unchanged target. |
| `Handler.HttpGetReturnStatusCode` | src/main.go:113-124 | A transport failure gives 500. Otherwise the upstream code is returned unchanged. |
| `Handler.RelayStatus` | src/main.go:75-82 | The relayed response carries the upstream code, with type `text/plain` and its reason phrase as both description and body. A relayed 403 is exactly the rejection response. |
| `Handler.HandleRequest` | src/main.go:53-83 | The response always has type `text/plain`, and its description and body are the reason phrase of its code. A request that fails either check gets the fixed 403. An admitted request gets the upstream's code, or 500 on a transport failure. |
| `Handler.EmptyKeyAndValuePass` | src/main.go:58-59 | With no name and no value configured, the header gate passes exactly when the request has no non-empty header named `""`. |
| `Handler.EmptyValuePassesWhenHeaderAbsent` | src/main.go:58-59 | With a name and an empty value configured, a request without that header passes the gate. |
| `Handler.HeaderMismatchForbidden` | src/main.go:58-63 | With a non-empty expected value, a missing header, a differently spelled name or a different value gives the fixed 403. |
| `Handler.EmptyKeyStillChecksValue` | src/main.go:58-63 | An empty name with a non-empty value is not a bypass. Only a request carrying a header named `""` with that value can avoid the 403. |
| `Handler.MissingUrlKeyActsAsEmpty` | src/main.go:66-67 | Without the key `url` the target is `""`, and the request is refused unless `""` is on the list. |
| `Handler.TargetNotListedForbidden` | src/main.go:66-71 | A target that is not exactly on the list gets the fixed 403, whatever the headers are. |
| `Handler.HeaderCheckPrecedesTarget` | src/main.go:58-71 | When the header check fails, the query is never consulted: requests with the same headers get the same 403. |
| `Handler.OnlyHeaderAndUrlMatter` | src/main.go:58-67 | The response depends on the request only through the configured header and the `url` parameter. |
| `Handler.RejectedNeverCallsUpstream` | src/main.go:58-74 | A rejected request gets the same 403 whatever the upstream would do, so the upstream is never asked. |
| `Handler.OnlyOutboundUrlIsRequested` | src/main.go:74 | Two upstreams that agree on `https://` + target give the same response. No other URL is ever requested. |
| `Handler.TransportErrorLooksLike500` | src/main.go:116-121 | A transport failure cannot be told apart from a genuine upstream 500. When admitted, both give `{500, Internal Server Error, Internal Server Error}`. |
| `Handler.AdmittedRelaysStatus` | src/main.go:74-82 | An admitted request relays the upstream code unchanged, with its reason phrase as description and body. For example, 400 gives `Bad Request`. |
| `Handler.Non403MeansAdmitted` | src/main.go:58-74 | Any status other than 403 means the request passed both checks. |
| `Settings.LoadedConfig` | src/main.go:36-50 | The loaded list is `AllowedSet` of `ALLOWED_URLS`, so it holds exactly the comma-separated pieces of a non-empty value and nothing for an empty or unset one. The header name and value come straight from their variables, with unset read as `""`. |
| `Settings.Settings.constructor` | src/main.go:31-33 | Package initialisation leaves the settings equal to `LoadedConfig` of the environment. |
| `Settings.Settings.LoadSettings` | src/main.go:36-50 | All three package variables are overwritten with `LoadedConfig` of the environment. |
| `Settings.Settings.HandleRequest` | src/main.go:53-83 | The entry point answers `Handler.HandleRequest` under the current settings, and its error result is always nil. |
| `Settings.EmptyAllowlistForbidsAll` | src/main.go:98 | With `ALLOWED_URLS` empty or unset, every request gets the fixed 403. |
| `Settings.NoHeaderConfiguredOnlyListDecides` | src/main.go:44-45 | With neither header variable set, and no header named `""` in the request, admission depends on the allow-list alone. |
| `Scenarios.OutboundUrls` | src/main_test.go:17 | The mocked upstream URLs are the ones the handler builds. |
| `Scenarios.AllowedTargetsRelay200` | src/main_test.go:12-60 | A listed target with an upstream answering 200 gives `{200, OK, OK}`. |
| `Scenarios.LoadedSingleEntryRelays` | src/main_test.go:12-35 | Loading `ALLOWED_URLS` set to one non-empty, comma-free entry and requesting that entry relays the upstream's code with its reason phrase. |
| `Scenarios.FacebookPortIsOneEntry` | src/main_test.go:13-35 | The entry `www.facebook.com:1234/bar` is non-empty and comma-free, and 200 reads `OK`. With `LoadedSingleEntryRelays`, the first case gives `{200, OK, OK}`. |
| `Scenarios.UnreachableUpstreamGives500` | src/main_test.go:62-81 | An unreachable listed target gives `{500, Internal Server Error, Internal Server Error}`. |
| `Scenarios.UpstreamErrorsPassThrough` | src/main_test.go:167-215 | Upstream 400 and 500 are relayed with their reason phrases. |
| `Scenarios.TargetsRefused` | src/main_test.go:83-165 | The empty target, a target one character short, the key `URL`, and an empty list all give the 403. |
| `Scenarios.HeaderConfigurationsAdmitting` | src/main_test.go:217-269 | A request is admitted in three cases: no header is configured; a name with an empty value is configured and the header is absent; the exact header is present (lines 398-426). |
| `Scenarios.HeaderMismatchesRefused` | src/main_test.go:271-396 | These header cases get the 403: an empty name with a value, a header named `""`, an empty value, a wrong value, and a lower-case name. |

## Left out

- Logging (`logAsJson` and the logrus level and formatter set in `LoadSettings`) has no bearing on any result.
- The real environment is not read. `os.Getenv` is modelled as a map passed in, and an unset variable reads as `""`.
- The network is not modelled. `http.Get` is an oracle from the outbound URL to a transport failure or a status code. Redirects, TLS and timeouts happen inside that call. The upstream body is discarded by the source and is not modelled.
- Http.StatusText: the table follows Go's `net/http`, which is not part of this model. The source's tests pin only 200, 400, 403 and 500.
- Strings are modelled as sequences of characters, while Go strings are bytes. This makes no difference here, because the split is on the ASCII comma and every comparison is exact equality.
- The Lambda plumbing is not modelled: `main`/`lambda.Start`, the `context.Context` argument, JSON struct tags, and the pointer results. The response is always non-nil, so it is modelled as a plain value.
- An event is modelled by its headers and query parameters only. The handler reads nothing else, so the method, path and raw headers are not modelled.
- HTTP-method checks, path-based targets and other rejection bodies are not modelled, because this handler has none of them.
- Concurrency is not modelled. Invocations share only settings, which are written once at start-up.
