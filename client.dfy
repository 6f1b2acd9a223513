/**
 * The backend API client: it holds the backend's URL and credentials, logs
 * in by posting the user name and the Base64 form of the password to
 * `<api_url>/Login`, and keeps the token the backend answers with.
 *
 * The HTTP exchange is a parameter: `PostOutcome` is what `requests.post`,
 * `raise_for_status` and `response.json()` together produced for the
 * request the client built.
 */
module ApiClient {
  import opened Wrappers
  import opened Values
  import Base64
  import Config

  /** The three values `__init__` reads: base URL, user name and password, as stored. */
  datatype ClientSettings = ClientSettings(apiUrl: Json, username: Json, password: Json)

  /** What the transport produced for the login request. */
  datatype PostOutcome =
    | RequestFailed       // a RequestException: connection error, timeout, error status, or a body that is not JSON
    | Responded(data: Json)

  /** The ways `login` raises. */
  datatype LoginError =
    | MissingConfiguration  // ValueError: a required setting is empty
    | PasswordNotText       // the password has no `.encode()`: AttributeError
    | LoginFailed           // "Login failed: ...", wrapping a RequestException
    | MalformedResponse     // the JSON body is not an object: `data.get` raises AttributeError

  /** The request `login` posts. */
  datatype LoginRequest = LoginRequest(url: string, username: Json, password: string)

  /** `all([api_url, username, password])`. */
  predicate HasCredentials(s: ClientSettings) {
    Truthy(s.apiUrl) && Truthy(s.username) && Truthy(s.password)
  }

  /** The settings `__init__` reads from a configuration store: `get('commvault', key)` for each key. */
  function SettingsOf(cfg: map<string, Json>): ClientSettings
    requires Config.WellShaped(cfg)
  {
    var section := cfg["commvault"].fields;
    ClientSettings(GetOr(section, "api_url", EmptyObj), GetOr(section, "username", EmptyObj), GetOr(section, "password", EmptyObj))
  }

  /** The settings are exactly what the store's nested `get` answers. */
  lemma SettingsOfIsLookup(cfg: map<string, Json>)
    requires Config.WellShaped(cfg)
    ensures Config.Lookup(Obj(cfg), ["commvault", "api_url"]) == Some(SettingsOf(cfg).apiUrl)
    ensures Config.Lookup(Obj(cfg), ["commvault", "username"]) == Some(SettingsOf(cfg).username)
    ensures Config.Lookup(Obj(cfg), ["commvault", "password"]) == Some(SettingsOf(cfg).password)
  {
  }

  /**
   * The settings `__init__` reads when it is handed a target's plain dict, as
   * the collector does: `dict.get('commvault', 'api_url')` is the value of
   * the key "commvault", or the literal string "api_url" when there is none.
   * A value that is not a dict has no `get` (None).
   */
  function SettingsAsWritten(targetConfig: Json): Option<ClientSettings> {
    if !targetConfig.Obj? then None
    else
      var f := targetConfig.fields;
      Some(ClientSettings(GetOr(f, "commvault", Str("api_url")), GetOr(f, "commvault", Str("username")), GetOr(f, "commvault", Str("password"))))
  }

  /** The settings read from the target's own fields, as the collector means to pass them. */
  function SettingsFromTarget(targetConfig: Json): (r: Option<ClientSettings>)
    ensures r.Some? <==> targetConfig.Obj?
    ensures r.Some? ==>
      var f := targetConfig.fields;
      (("api_url" in f) ==> r.value.apiUrl == f["api_url"]) &&
      (("username" in f) ==> r.value.username == f["username"]) &&
      (("password" in f) ==> r.value.password == f["password"]) &&
      (HasCredentials(r.value) ==> "api_url" in f && "username" in f && "password" in f)
  {
    if !targetConfig.Obj? then None
    else
      var f := targetConfig.fields;
      Some(ClientSettings(GetOr(f, "api_url", Null), GetOr(f, "username", Null), GetOr(f, "password", Null)))
  }

  /** `f"{self.api_url}/Login"`. */
  function LoginUrl(s: ClientSettings): string {
    PyStr(s.apiUrl) + "/Login"
  }

  /** The request `login` builds, or None when it raises before posting anything. */
  function LoginRequestFor(s: ClientSettings): Option<LoginRequest> {
    if !HasCredentials(s) || !s.password.Str? then None
    else Some(LoginRequest(LoginUrl(s), s.username, Base64.EncodePassword(s.password.s)))
  }

  /** The outcome of `login`: the new `auth_token` (`data.get('token')`, None when absent) or the error it raises. */
  function LoginResult(s: ClientSettings, post: PostOutcome): Result<Json, LoginError> {
    if !HasCredentials(s) then Failure(MissingConfiguration)
    else if !s.password.Str? then Failure(PasswordNotText)
    else match post
      case RequestFailed => Failure(LoginFailed)
      case Responded(data) =>
        if data.Obj? then Success(GetOr(data.fields, "token", Null)) else Failure(MalformedResponse)
  }

  /** The outcome of `get_auth_token` with `token` held: the held token when truthy, otherwise the token a login stores. */
  function TokenStep(token: Json, s: ClientSettings, post: PostOutcome): Result<Json, LoginError> {
    if Truthy(token) then Success(token) else LoginResult(s, post)
  }

  /**
   * `login` raises ValueError, before building any request, exactly when one
   * of the three settings is empty; otherwise a request is built exactly when
   * the password is a string.
   */
  lemma MissingSettingsFailFirst(s: ClientSettings, post: PostOutcome)
    ensures LoginResult(s, post) == Failure(MissingConfiguration) <==>
      !Truthy(s.apiUrl) || !Truthy(s.username) || !Truthy(s.password)
    ensures !HasCredentials(s) ==> LoginRequestFor(s).None?
    ensures HasCredentials(s) ==> (LoginRequestFor(s).Some? <==> s.password.Str?)
  {
  }

  /** The login request goes to `<api_url>/Login` and carries the Base64 of the password's UTF-8 bytes. */
  lemma LoginRequestContents(s: ClientSettings)
    requires LoginRequestFor(s).Some?
    ensures var req := LoginRequestFor(s).value;
      var bytes := Base64.Utf8Encode(s.password.s);
      req.url == PyStr(s.apiUrl) + "/Login" && req.username == s.username &&
      Base64.Decode(req.password) == Some(bytes) &&
      |req.password| == 4 * ((|bytes| + 2) / 3)
  {
    var encoded := Base64.EncodePassword(s.password.s);
    assert LoginRequestFor(s).value == LoginRequest(LoginUrl(s), s.username, encoded);
  }

  /** Once a request is sent, a transport failure is "Login failed" and a JSON object gives the value of its "token". */
  lemma LoginOutcomeOfResponse(s: ClientSettings, data: Json)
    requires LoginRequestFor(s).Some?
    ensures LoginResult(s, RequestFailed) == Failure(LoginFailed)
    ensures LoginResult(s, Responded(data)).Success? <==> data.Obj?
    ensures data.Obj? && "token" in data.fields ==> LoginResult(s, Responded(data)) == Success(data.fields["token"])
    ensures data.Obj? && "token" !in data.fields ==> LoginResult(s, Responded(data)) == Success(Null)
  {
  }

  /** A truthy held token is returned without logging in, whatever the backend would have answered. */
  lemma HeldTokenReused(token: Json, s: ClientSettings, post: PostOutcome, post': PostOutcome)
    requires Truthy(token)
    ensures TokenStep(token, s, post) == TokenStep(token, s, post') == Success(token)
  {
  }

  /**
   * A login that stores a truthy token serves every later `get_auth_token`
   * without another login; one that stores a falsy token (no "token" key)
   * leaves the next call to log in again.
   */
  lemma TokenKeptAfterLogin(s: ClientSettings, post: PostOutcome, post': PostOutcome)
    requires LoginResult(s, post).Success?
    ensures var t := LoginResult(s, post).value;
      (Truthy(t) ==> TokenStep(t, s, post') == Success(t)) &&
      (!Truthy(t) ==> TokenStep(t, s, post') == LoginResult(s, post'))
  {
  }

  /**
   * The collector hands the client the target's dict, so the client reads
   * the literal key names instead of the target's URL and credentials.
   */
  lemma AsWrittenIgnoresTargetFields()
    ensures var tc := Obj(map["api_url" := Str("https://backup.example"), "username" := Str("admin"), "password" := Str("secret")]);
      SettingsAsWritten(tc) == Some(ClientSettings(Str("api_url"), Str("username"), Str("password"))) &&
      HasCredentials(SettingsAsWritten(tc).value) && LoginUrl(SettingsAsWritten(tc).value) == "api_url/Login" &&
      SettingsFromTarget(tc) == Some(ClientSettings(Str("https://backup.example"), Str("admin"), Str("secret"))) &&
      LoginUrl(SettingsFromTarget(tc).value) == "https://backup.example/Login"
  {
    var tc := Obj(map["api_url" := Str("https://backup.example"), "username" := Str("admin"), "password" := Str("secret")]);
    assert "commvault" !in tc.fields;
  }

  class CommvaultAPIClient {
    const settings: ClientSettings
    /** `self.auth_token`; `Null` stands for None. */
    var authToken: Json

    /** `__init__(config)` over a configuration store. */
    constructor (config: Config.ConfigHandler)
      requires config.Valid()
      ensures settings == SettingsOf(config.config) && authToken == Null
    {
      var apiUrl := config.Get(["commvault", "api_url"]);
      var username := config.Get(["commvault", "username"]);
      var password := config.Get(["commvault", "password"]);
      SettingsOfIsLookup(config.config);
      settings := ClientSettings(apiUrl.value, username.value, password.value);
      authToken := Null;
    }

    /** `__init__(config)` when the caller hands over settings read from a plain dict. */
    constructor FromSettings(s: ClientSettings)
      ensures settings == s && authToken == Null
    {
      settings := s;
      authToken := Null;
    }

    /** `login`: `request` is what is posted, `post` what came back; the token is stored only on success. */
    method Login(post: PostOutcome) returns (r: Result<Json, LoginError>, request: Option<LoginRequest>)
      modifies this
      ensures request == LoginRequestFor(settings)
      ensures r == LoginResult(settings, post)
      ensures authToken == if r.Success? then r.value else old(authToken)
    {
      request := None;
      if !(Truthy(settings.apiUrl) && Truthy(settings.username) && Truthy(settings.password)) {
        r := Failure(MissingConfiguration);
        return;
      }
      if !settings.password.Str? {
        r := Failure(PasswordNotText);
        return;
      }
      var encoded := Base64.EncodePassword(settings.password.s);
      request := Some(LoginRequest(LoginUrl(settings), settings.username, encoded));
      match post
      case RequestFailed =>
        r := Failure(LoginFailed);
      case Responded(data) =>
        if !data.Obj? {
          r := Failure(MalformedResponse);
        } else {
          authToken := GetOr(data.fields, "token", Null);
          r := Success(authToken);
        }
    }

    /** `get_auth_token`: logs in only when no truthy token is held. */
    method GetAuthToken(post: PostOutcome) returns (r: Result<Json, LoginError>, loggedIn: bool)
      modifies this
      ensures loggedIn <==> !Truthy(old(authToken))
      ensures r == TokenStep(old(authToken), settings, post)
      ensures authToken == if r.Success? then r.value else old(authToken)
    {
      loggedIn := !Truthy(authToken);
      if loggedIn {
        var request;
        r, request := Login(post);
        if r.Failure? {
          return;
        }
      }
      r := Success(authToken);
    }
  }
}
