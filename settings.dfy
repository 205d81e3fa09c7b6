/**
  The process-wide settings: the three package variables that `LoadSettings`
  assigns from the environment at start-up and `HandleRequest` reads on
  every invocation.
 */
module Settings {
  import opened GoMaps
  import opened Http
  import opened Allowlist
  import opened Handler

  const AllowedUrlsVar := "ALLOWED_URLS"
  const ExpectedHeaderKeyVar := "EXPECTED_HEADER_KEY"
  const ExpectedHeaderValueVar := "EXPECTED_HEADER_VALUE"

  datatype Option<T> = None | Some(value: T)

  /** The configuration `LoadSettings` derives from an environment; unset variables read as "". */
  function LoadedConfig(env: Environment): (cfg: Config)
    ensures cfg.allowedURLs == AllowedSet(Getenv(env, AllowedUrlsVar))
    ensures Getenv(env, AllowedUrlsVar) == "" ==> cfg.allowedURLs == {}
    ensures cfg.expectedHeaderKey == Getenv(env, ExpectedHeaderKeyVar)
    ensures cfg.expectedHeaderValue == Getenv(env, ExpectedHeaderValueVar)
  {
    Config(
      AllowedSet(Getenv(env, AllowedUrlsVar)),
      Getenv(env, ExpectedHeaderKeyVar),
      Getenv(env, ExpectedHeaderValueVar))
  }

  class Settings {
    var allowedURLs: set<string>
    var expectedHeaderKey: string
    var expectedHeaderValue: string

    /** The settings as the value the handler reads. */
    function Current(): Config
      reads this
    {
      Config(allowedURLs, expectedHeaderKey, expectedHeaderValue)
    }

    /** Package initialisation: `init` runs `LoadSettings` once. */
    constructor (env: Environment)
      ensures Current() == LoadedConfig(env)
    {
      allowedURLs, expectedHeaderKey, expectedHeaderValue := {}, "", "";
      new;
      LoadSettings(env);
    }

    /** `LoadSettings`: overwrites all three variables from the environment. */
    method LoadSettings(env: Environment)
      modifies this
      ensures Current() == LoadedConfig(env)
    {
      allowedURLs := GetAllowedURLs(env, AllowedUrlsVar);
      expectedHeaderKey := Getenv(env, ExpectedHeaderKeyVar);
      expectedHeaderValue := Getenv(env, ExpectedHeaderValueVar);
    }

    /**
      The Lambda entry point: answers from the current settings without
      changing them, and its error result is always nil.
     */
    method HandleRequest(event: Event, get: string -> UpstreamResult) returns (response: Response, err: Option<string>)
      ensures response == Handler.HandleRequest(Current(), event, get)
      ensures err == None
    {
      response := Handler.HandleRequest(Current(), event, get);
      err := None;
    }
  }

  /** With ALLOWED_URLS empty or unset every request gets the fixed 403, whatever its headers. */
  lemma EmptyAllowlistForbidsAll(env: Environment, event: Event, get: string -> UpstreamResult)
    requires Getenv(env, AllowedUrlsVar) == ""
    ensures Handler.HandleRequest(LoadedConfig(env), event, get) == RespondForbidden()
  {
  }

  /**
    With neither header variable set, and a request that carries no header
    named "", only the allow-list decides.
   */
  lemma NoHeaderConfiguredOnlyListDecides(env: Environment, event: Event)
    requires Getenv(env, ExpectedHeaderKeyVar) == "" && Getenv(env, ExpectedHeaderValueVar) == ""
    requires "" !in event.headers
    ensures Admitted(LoadedConfig(env), event) <==> IsAllowedURL(UpstreamUrl(event), LoadedConfig(env).allowedURLs)
  {
  }
}
