/** The stored connection to AAP and the client that is built from it. */
module Client {
  import opened Wrappers
  import opened Text

  const SECOND := 1_000_000_000
  const DEFAULT_HTTP_TIMEOUT := 30 * SECOND
  const DEFAULT_TOKENS_API_PATH := "/api/gateway/v1"

  datatype Url = Url(scheme: string, host: string)

  /** Library code the engine calls but does not contain: url.Parse, the PEM reader, and whether the JSON
      decoder of stored data keeps the text of numbers or turns them into float64 values. */
  datatype Env = Env(parseUrl: string -> Option<Url>, parsesPem: string -> bool, keepsNumberText: bool)

  /** Only what the engine itself asks of the Rotation Manager's parameters. */
  datatype Rotation = Rotation(shouldRegister: bool)

  /** A duration is a count of nanoseconds. A tokenId of 0 marks an operator-supplied credential. */
  datatype Config = Config(
    address: string, token: string, username: string, password: string,
    tokensApiPath: string, caCert: string, skipTlsVerify: bool, requestTimeout: int,
    tokenDescriptionPrefix: string, rotation: Rotation, tokenId: int)

  const EMPTY_CONFIG := Config("", "", "", "", "", "", false, 0, "", Rotation(false), 0)

  datatype Auth = Bearer(token: string) | Basic(username: string, password: string)

  datatype AapClient = AapClient(
    address: string, basePath: string, skipTlsVerify: bool, caCert: string, timeout: int, auth: Auth)

  datatype Error = NotConfigured | MissingToken | MissingAddress | InvalidAddress | NotHttps | NoHost | BadCaCert

  // ----- Normalisation

  function NormalizeAddress(address: string): string {
    TrimRightSlash(TrimSpace(address))
  }

  function NormalizeBasePath(basePath: string): string {
    var trimmed := TrimSpace(basePath);
    var path := if trimmed == "" then DEFAULT_TOKENS_API_PATH else trimmed;
    TrimRightSlash(if path[0] == '/' then path else "/" + path)
  }

  function ValidateAddress(env: Env, address: string): Result<string, Error> {
    var normalized := NormalizeAddress(address);
    match env.parseUrl(normalized)
    case None => Err(InvalidAddress)
    case Some(u) =>
      if u.scheme != "https" then Err(NotHttps) else if u.host == "" then Err(NoHost) else Ok(normalized)
  }

  // ----- Building a client

  function AuthenticatorFromConfig(config: Config): Result<Auth, Error> {
    if config.username != "" && config.password != "" then Ok(Basic(config.username, config.password))
    else if config.token != "" then Ok(Bearer(config.token))
    else Err(MissingToken)
  }

  function NewClientWithAuth(env: Env, config: Config, auth: Auth): Result<AapClient, Error> {
    if config.address == "" then Err(MissingAddress)
    else
      match ValidateAddress(env, config.address)
      case Err(e) => Err(e)
      case Ok(address) =>
        if config.caCert != "" && !env.parsesPem(config.caCert) then Err(BadCaCert)
        else
          var timeout := if config.requestTimeout > 0 then config.requestTimeout else DEFAULT_HTTP_TIMEOUT;
          Ok(AapClient(address, NormalizeBasePath(config.tokensApiPath), config.skipTlsVerify, config.caCert,
              timeout, auth))
  }

  function NewClient(env: Env, config: Config): Result<AapClient, Error> {
    match AuthenticatorFromConfig(config)
    case Err(e) => Err(e)
    case Ok(auth) => NewClientWithAuth(env, config, auth)
  }

  /** Swapping in another bearer token (a role's bootstrap token, a freshly rotated root token) never
      makes a usable connection unusable. */
  lemma BearerSwapBuilds(env: Env, config: Config, token: string, id: int)
    requires NewClient(env, config).Ok? && token != ""
    ensures NewClientWithAuth(env, config, Bearer(token)) ==
            Ok(NewClient(env, config).value.(auth := Bearer(token)))
    ensures config.username == "" ==>
              NewClient(env, config.(token := token, tokenId := id)) ==
              Ok(NewClient(env, config).value.(auth := Bearer(token)))
  {
  }

  // ----- What a client may talk to

  /** An https endpoint with a host. */
  predicate Secure(env: Env, client: AapClient) {
    var u := env.parseUrl(client.address);
    u.Some? && u.value.scheme == "https" && u.value.host != ""
  }

  /** Exactly these configurations yield a client, for any credential. */
  lemma BuildsIff(env: Env, config: Config, auth: Auth)
    ensures NewClientWithAuth(env, config, auth).Ok? <==>
              && config.address != "" && (config.caCert == "" || env.parsesPem(config.caCert))
              && var u := env.parseUrl(NormalizeAddress(config.address));
                 u.Some? && u.value.scheme == "https" && u.value.host != ""
    ensures NewClient(env, config).Ok? <==>
              && (config.token != "" || (config.username != "" && config.password != ""))
              && NewClientWithAuth(env, config, auth).Ok?
  {
  }

  /** Whatever client is built speaks https to a host, with the configured trust settings, the given credential
      and a time limit; its address is the configured one but for surrounding white space and slashes after it,
      and its base path begins with a slash and does not end with one. */
  lemma BuiltIsSecure(env: Env, config: Config, auth: Auth) returns (before: string, slashes: string, after: string)
    requires NewClientWithAuth(env, config, auth).Ok?
    ensures var k := NewClientWithAuth(env, config, auth).value;
            && Secure(env, k) && k.auth == auth && k.skipTlsVerify == config.skipTlsVerify && k.caCert == config.caCert
            && config.address == before + k.address + slashes + after && Blank(before) && AllSlashes(slashes)
                && Blank(after)
            && (k.address != "" ==> !IsSpace(k.address[0]) && k.address[|k.address| - 1] != '/')
            && (k.address != "" && slashes == "" ==> !IsSpace(k.address[|k.address| - 1]))
            && (k.basePath != "" ==> k.basePath[0] == '/' && k.basePath[|k.basePath| - 1] != '/')
            && k.timeout == (if config.requestTimeout > 0 then config.requestTimeout else 30 * SECOND)
  {
    before, after := SpaceTrimmed(config.address);
    slashes := SlashTrimmed(TrimSpace(config.address));
    var a := NormalizeAddress(config.address);
    assert before + a + slashes + after == before + (a + slashes) + after;
    BasePathShape(config.tokensApiPath);
  }

  lemma BasePathShape(basePath: string)
    ensures var r := NormalizeBasePath(basePath); r != "" ==> r[0] == '/' && r[|r| - 1] != '/'
  {
    var trimmed := TrimSpace(basePath);
    var path := if trimmed == "" then DEFAULT_TOKENS_API_PATH else trimmed;
    var full := if path[0] == '/' then path else "/" + path;
    var gone := SlashTrimmed(full);
    assert full[0] == '/';
  }

  // ----- Comparing connections

  predicate ConnectionChanged(before: Option<Config>, after: Option<Config>) {
    && before.Some? && after.Some?
    && (|| NormalizeAddress(before.value.address) != NormalizeAddress(after.value.address)
        || NormalizeBasePath(before.value.tokensApiPath) != NormalizeBasePath(after.value.tokensApiPath)
        || before.value.caCert != after.value.caCert
        || before.value.skipTlsVerify != after.value.skipTlsVerify)
  }

  predicate SameConnection(a: Config, b: Config) { !ConnectionChanged(Some(a), Some(b)) }

  /** On stored configurations "not changed" is an equivalence, and it is exactly fine enough: clients
      of two configurations agree on everything but the credential and the timeout. */
  lemma UnchangedConnectionSameEndpoint(env: Env, a: Config, b: Config, c: Config)
    ensures SameConnection(a, a)
    ensures SameConnection(a, b) ==> SameConnection(b, a)
    ensures SameConnection(a, b) && SameConnection(b, c) ==> SameConnection(a, c)
    ensures NewClient(env, a).Ok? && NewClient(env, b).Ok? ==>
              var ca, cb := NewClient(env, a).value, NewClient(env, b).value;
              (SameConnection(a, b) <==> ca == cb.(auth := ca.auth, timeout := ca.timeout))
  {
  }

  // ----- Name lookups

  /** A row of a users or applications listing. */
  datatype Named = Named(id: int, name: string)

  datatype LookupError = NotFound | InvalidId | Ambiguous

  function Matches(rows: seq<Named>, name: string): seq<Named> {
    if rows == [] then []
    else Matches(rows[..|rows| - 1], name) + if rows[|rows| - 1].name == name then [rows[|rows| - 1]] else []
  }

  function ResolveId(rows: seq<Named>, name: string): Result<int, LookupError> {
    var matches := Matches(rows, name);
    if |matches| == 0 then Err(NotFound)
    else if |matches| > 1 then Err(Ambiguous)
    else if matches[0].id <= 0 then Err(InvalidId)
    else Ok(matches[0].id)
  }

  /** The listing holds exactly one row with this exact name, at position i. */
  predicate UniqueMatch(rows: seq<Named>, name: string, i: nat) {
    && i < |rows| && rows[i].name == name
    && forall j :: 0 <= j < |rows| && rows[j].name == name ==> j == i
  }

  lemma {:induction false} NoMatch(rows: seq<Named>, name: string)
    ensures Matches(rows, name) == [] <==> forall j :: 0 <= j < |rows| ==> rows[j].name != name
  {
    if rows != [] { NoMatch(rows[..|rows| - 1], name); }
  }

  lemma {:induction false} OneMatch(rows: seq<Named>, name: string, i: nat)
    requires UniqueMatch(rows, name, i)
    ensures Matches(rows, name) == [rows[i]]
  {
    var init := rows[..|rows| - 1];
    if i < |init| {
      OneMatch(init, name, i);
    } else {
      NoMatch(init, name);
    }
  }

  lemma {:induction false} MatchIndex(rows: seq<Named>, name: string) returns (i: nat)
    requires |Matches(rows, name)| == 1
    ensures UniqueMatch(rows, name, i)
  {
    var init := rows[..|rows| - 1];
    if rows[|init|].name == name {
      NoMatch(init, name);
      i := |init|;
    } else {
      i := MatchIndex(init, name);
    }
  }

  /** A lookup succeeds exactly on a listing with one row of that exact name and a usable id, whatever
      else the server's filter let through. */
  lemma ResolveIdMeaning(rows: seq<Named>, name: string, id: int)
    ensures ResolveId(rows, name) == Ok(id) <==> exists i: nat :: UniqueMatch(rows, name, i) && rows[i].id == id > 0
    ensures ResolveId(rows, name) == Err(NotFound) <==> forall j :: 0 <= j < |rows| ==> rows[j].name != name
  {
    NoMatch(rows, name);
    if |Matches(rows, name)| == 1 {
      var k := MatchIndex(rows, name);
      OneMatch(rows, name, k);
    }
    forall i: nat | UniqueMatch(rows, name, i)
      ensures Matches(rows, name) == [rows[i]]
    {
      OneMatch(rows, name, i);
    }
  }

  /** ResolveUserID and ResolveApplicationID, after the listing has arrived. */
  method ResolveName(rows: seq<Named>, name: string) returns (r: Result<int, LookupError>)
    ensures r == ResolveId(rows, name)
  {
    var matches: seq<Named> := [];
    for i := 0 to |rows|
      invariant matches == Matches(rows[..i], name)
    {
      if rows[i].name == name {
        matches := matches + [rows[i]];
      }
      assert rows[..i + 1][..i] == rows[..i];
    }
    assert rows[..|rows|] == rows;
    match |matches| {
      case 0 => r := Err(NotFound);
      case 1 => r := if matches[0].id <= 0 then Err(InvalidId) else Ok(matches[0].id);
      case _ => r := Err(Ambiguous);
    }
  }
}
