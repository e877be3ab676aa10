/** pathConfigWrite: merging a write into the stored configuration and validating the result, and what
    holds of a configuration after any run of writes, deletes and rotations. */
module ConfigWrite {
  import opened Wrappers
  import opened Decimal
  import opened Client
  import opened Snapshot

  /** A request_timeout as the field schema hands it over: seconds, not negative, short enough that the
      duration parser could represent it. */
  type TimeoutSeconds = n: int | 0 <= n <= MAX_INT64 / SECOND witness 0

  /** The fields present in a write. `rotation` is the outcome of parsing the rotation settings over the
      stored ones; None means they were invalid. */
  datatype Fields = Fields(
    address: Option<string>, token: Option<string>, username: Option<string>, password: Option<string>,
    tokensApiPath: Option<string>, caCert: Option<string>, skipTlsVerify: Option<bool>,
    requestTimeout: Option<TimeoutSeconds>, tokenDescriptionPrefix: Option<string>, rotation: Option<Rotation>)
  {
    predicate HasBearer() { token.GetOr("") != "" }
    predicate HasBasic() { username.GetOr("") != "" || password.GetOr("") != "" }
    predicate CredentialSupplied() { token.GetOr("") != "" || password.GetOr("") != "" }
  }

  datatype WriteError =
    | NotStored | AddressRequired | BothSchemes | BadRotation | IncompleteBasic | NoCredential
    | CredentialRequired | RotationNeedsBearer | BadConnection(e: Error)

  predicate ExactlyOneScheme(c: Config) {
    if c.token != "" then c.username == "" && c.password == "" else c.username != "" && c.password != ""
  }

  // ----- Specification: the merged configuration field by field, and when it is accepted

  function Merged(stored: Option<Config>, f: Fields): Config {
    var base := stored.GetOr(EMPTY_CONFIG);
    var keptUser := if f.HasBearer() then "" else base.username;
    var keptPassword := if f.HasBearer() then "" else base.password;
    var c := base.(
      address := f.address.GetOr(base.address),
      token := if f.HasBasic() then "" else f.token.GetOr(base.token),
      username := f.username.GetOr(keptUser),
      password := f.password.GetOr(keptPassword),
      tokensApiPath := f.tokensApiPath.GetOr(if base.tokensApiPath == "" then DEFAULT_TOKENS_API_PATH
          else base.tokensApiPath),
      caCert := f.caCert.GetOr(base.caCert),
      skipTlsVerify := f.skipTlsVerify.GetOr(base.skipTlsVerify),
      requestTimeout := if f.requestTimeout.Some? then f.requestTimeout.value * SECOND else base.requestTimeout,
      tokenDescriptionPrefix := f.tokenDescriptionPrefix.GetOr(base.tokenDescriptionPrefix),
      rotation := f.rotation.GetOr(base.rotation));
    c.(tokenId := if f.token.Some? || f.HasBasic() || ConnectionChanged(stored, Some(c)) then 0 else base.tokenId)
  }

  /** A write reaches the connectivity probe with this configuration, or is refused before it. */
  function Accept(env: Env, stored: Option<Config>, create: bool, f: Fields): Result<Config, WriteError> {
    var c := Merged(stored, f);
    if stored.None? && !create then Err(NotStored)
    else if f.address.None? && create then Err(AddressRequired)
    else if f.HasBearer() && f.HasBasic() then Err(BothSchemes)
    else if f.rotation.None? then Err(BadRotation)
    else Validated(env, stored, create, f.CredentialSupplied(), c)
  }

  function Validated(env: Env, stored: Option<Config>, create: bool, credSupplied: bool, c: Config)
    : Result<Config, WriteError>
  {
    if !ExactlyOneScheme(c) then
      Err(if c.token != "" then BothSchemes else if c.username == "" && c.password == "" then NoCredential else IncompleteBasic)
    else if !create && !credSupplied && ConnectionChanged(stored, Some(c)) then Err(CredentialRequired)
    else if c.rotation.shouldRegister && c.token == "" then Err(RotationNeedsBearer)
    else match ValidateAddress(env, c.address)
         case Err(e) => Err(BadConnection(e))
         case Ok(_) => match NewClient(env, c) case Err(e) => Err(BadConnection(e)) case Ok(_) => Ok(c)
  }

  /** The credential part of the handler's assignments. */
  method MergeCredentials(base: Config, f: Fields) returns (config: Config, credSupplied: bool)
    requires !(f.HasBearer() && f.HasBasic())
    ensures credSupplied == f.CredentialSupplied()
    ensures config == base.(
      token := if f.HasBasic() then "" else f.token.GetOr(base.token),
      username := f.username.GetOr(if f.HasBearer() then "" else base.username),
      password := f.password.GetOr(if f.HasBearer() then "" else base.password),
      tokenId := if f.token.Some? || f.HasBasic() then 0 else base.tokenId)
  {
    config := base;
    credSupplied := false;
    if f.token.Some? {
      config := config.(token := f.token.value, tokenId := 0);
      if config.token != "" {
        config := config.(username := "", password := "");
        credSupplied := true;
      }
    }
    if f.username.Some? {
      config := config.(username := f.username.value);
    }
    if f.password.Some? {
      config := config.(password := f.password.value);
      if config.password != "" { credSupplied := true; }
    }
    if f.HasBasic() {
      config := config.(token := "", tokenId := 0);
    }
  }

  /** The optional settings besides credentials, address and rotation. */
  function WithSettings(base: Config, f: Fields): Config {
    base.(
      tokensApiPath := f.tokensApiPath.GetOr(if base.tokensApiPath == "" then DEFAULT_TOKENS_API_PATH
          else base.tokensApiPath),
      caCert := f.caCert.GetOr(base.caCert),
      skipTlsVerify := f.skipTlsVerify.GetOr(base.skipTlsVerify),
      requestTimeout := if f.requestTimeout.Some? then f.requestTimeout.value * SECOND else base.requestTimeout,
      tokenDescriptionPrefix := f.tokenDescriptionPrefix.GetOr(base.tokenDescriptionPrefix))
  }

  method MergeSettings(base: Config, f: Fields) returns (config: Config)
    ensures config == WithSettings(base, f)
  {
    config := base;
    if f.tokensApiPath.Some? {
      config := config.(tokensApiPath := f.tokensApiPath.value);
    } else if config.tokensApiPath == "" {
      config := config.(tokensApiPath := DEFAULT_TOKENS_API_PATH);
    }
    if f.caCert.Some? { config := config.(caCert := f.caCert.value); }
    if f.skipTlsVerify.Some? { config := config.(skipTlsVerify := f.skipTlsVerify.value); }
    if f.requestTimeout.Some? { config := config.(requestTimeout := f.requestTimeout.value * SECOND); }
    if f.tokenDescriptionPrefix.Some? { config := config.(tokenDescriptionPrefix := f.tokenDescriptionPrefix.value); }
  }

  /** A field given in the later of two writes wins. */
  function Over(f: Fields, g: Fields): Fields {
    f.(tokensApiPath := if g.tokensApiPath.Some? then g.tokensApiPath else f.tokensApiPath,
       caCert := if g.caCert.Some? then g.caCert else f.caCert,
       skipTlsVerify := if g.skipTlsVerify.Some? then g.skipTlsVerify else f.skipTlsVerify,
       requestTimeout := if g.requestTimeout.Some? then g.requestTimeout else f.requestTimeout,
       tokenDescriptionPrefix := if g.tokenDescriptionPrefix.Some? then g.tokenDescriptionPrefix else f.tokenDescriptionPrefix)
  }

  /** Two writes of settings amount to one, in which the later value of each field wins, if and only if they do
      not clear the API path in the first and leave it out of the second; even then both configurations have
      the same connection, timeout and prefix. */
  lemma SettingsComposeIff(base: Config, f: Fields, g: Fields)
    ensures var one, two := WithSettings(base, Over(f, g)), WithSettings(WithSettings(base, f), g);
            && (one == two <==> !(f.tokensApiPath == Some("") && g.tokensApiPath.None?))
            && SameConnection(one, two) && two == one.(tokensApiPath := two.tokensApiPath)
  {
    assert NormalizeBasePath("") == NormalizeBasePath(DEFAULT_TOKENS_API_PATH);
  }

  /** An accepted write sent once more, as the update it then is, is accepted again and changes nothing. */
  lemma RepeatedWriteChangesNothing(env: Env, stored: Option<Config>, create: bool, f: Fields)
    requires Accept(env, stored, create, f).Ok?
    ensures var c := Accept(env, stored, create, f).value; Accept(env, Some(c), false, f) == Ok(c)
  {
    var c := Merged(stored, f);
    assert Merged(Some(c), f) == c;
  }

  /** The handler up to the connectivity probe, in its own order of assignments and refusals. */
  method MergeAndValidate(env: Env, stored: Option<Config>, create: bool, f: Fields)
      returns (r: Result<Config, WriteError>)
    ensures r == Accept(env, stored, create, f)
    ensures r.Ok? ==> TakesFields(r.value, stored, f) && NewClient(env, r.value).Ok? && Secure(env, NewClient(env, r.value).value)
  {
    hide TakesFields; hide Secure; hide NewClient;
    var config := EMPTY_CONFIG;
    if stored.None? {
      if !create { return Err(NotStored); }
    } else {
      config := stored.value;
    }
    if f.address.Some? {
      config := config.(address := f.address.value);
    } else if create {
      return Err(AddressRequired);
    }
    if f.HasBearer() && f.HasBasic() { return Err(BothSchemes); }
    var credSupplied;
    config, credSupplied := MergeCredentials(config, f);
    config := MergeSettings(config, f);
    if f.rotation.None? { return Err(BadRotation); }
    config := config.(rotation := f.rotation.value);
    if ConnectionChanged(stored, Some(config)) { config := config.(tokenId := 0); }
    assert config == Merged(stored, f);

    r := Validate(env, stored, create, credSupplied, config);
    if r.Ok? { AcceptedTakesFields(env, stored, create, f); }
  }

  /** The refusals that look at the merged configuration, in the handler's order. */
  method Validate(env: Env, stored: Option<Config>, create: bool, credSupplied: bool, config: Config)
      returns (r: Result<Config, WriteError>)
    ensures r == Validated(env, stored, create, credSupplied, config)
  {
    var hasBearer := config.token != "";
    var hasBasic := config.username != "" || config.password != "";
    if hasBearer && hasBasic { return Err(BothSchemes); }
    if hasBasic && (config.username == "" || config.password == "") { return Err(IncompleteBasic); }
    if !hasBearer && !hasBasic { return Err(NoCredential); }
    if !create && !credSupplied && ConnectionChanged(stored, Some(config)) { return Err(CredentialRequired); }
    if config.rotation.shouldRegister && config.token == "" { return Err(RotationNeedsBearer); }
    var address := ValidateAddress(env, config.address);
    if address.Err? { return Err(BadConnection(address.error)); }
    var client := NewClient(env, config);
    if client.Err? { return Err(BadConnection(client.error)); }
    return Ok(config);
  }

  /** What every stored configuration satisfies. */
  predicate WellFormed(env: Env, c: Config) {
    && ExactlyOneScheme(c)
    && NewClient(env, c).Ok?
    && (c.tokenId > 0 ==> c.token != "")
    && 0 <= c.requestTimeout <= MAX_INT64 && WholeSeconds(c.requestTimeout)
    && (c.rotation.shouldRegister ==> c.token != "")
  }

  /** An accepted write leaves one complete auth scheme, and an id only together with the very token it
      belonged to. */
  lemma AcceptedIsWellFormed(env: Env, stored: Option<Config>, create: bool, f: Fields)
    requires Accept(env, stored, create, f).Ok?
    requires stored.Some? ==> WellFormed(env, stored.value)
    ensures WellFormed(env, Accept(env, stored, create, f).value)
    ensures var c := Accept(env, stored, create, f).value;
            c.tokenId > 0 ==>
              && stored.Some? && c.tokenId == stored.value.tokenId && c.token == stored.value.token
              && SameConnection(stored.value, c)
  {
    var c := Accept(env, stored, create, f).value;
    if f.requestTimeout.Some? {
      assert (f.requestTimeout.value * SECOND) % SECOND == 0;
    }
  }

  /** A configuration that a write leaves: every field given is the configuration's, and every field left out is as
      it was, but that a new credential drops the other scheme and an API path that was never set is the default. */
  predicate TakesFields(c: Config, before: Option<Config>, f: Fields) {
    var kept := if before.Some? then before.value else EMPTY_CONFIG;
    && (match f.address case Some(x) => c.address == x case None => c.address == kept.address)
    && (match f.token case Some(x) => c.token == x case None => c.token == if f.HasBasic() then "" else kept.token)
    && (match f.username case Some(x) => c.username == x case None => c.username == if f.HasBearer() then "" else kept.username)
    && (match f.password case Some(x) => c.password == x case None => c.password == if f.HasBearer() then "" else kept.password)
    && (match f.tokensApiPath
        case Some(x) => c.tokensApiPath == x
        case None => c.tokensApiPath == if kept.tokensApiPath == "" then DEFAULT_TOKENS_API_PATH else kept.tokensApiPath)
    && (match f.caCert case Some(x) => c.caCert == x case None => c.caCert == kept.caCert)
    && (match f.skipTlsVerify case Some(x) => c.skipTlsVerify == x case None => c.skipTlsVerify == kept.skipTlsVerify)
    && (match f.requestTimeout case Some(x) => c.requestTimeout == x * SECOND case None => c.requestTimeout == kept.requestTimeout)
    && (match f.tokenDescriptionPrefix
        case Some(x) => c.tokenDescriptionPrefix == x
        case None => c.tokenDescriptionPrefix == kept.tokenDescriptionPrefix)
    && (match f.rotation case Some(x) => c.rotation == x case None => c.rotation == kept.rotation)
  }

  lemma MergedTakesFields(stored: Option<Config>, f: Fields, d: Config)
    requires !(f.HasBearer() && f.HasBasic())
    ensures TakesFields(Merged(stored, f), stored, f)
    ensures TakesFields(d, stored, f) ==> d == Merged(stored, f).(tokenId := d.tokenId)
  {
    hide ConnectionChanged;
  }

  /** The write leaves both the stored token and the connection as they are. */
  predicate KeepsToken(stored: Option<Config>, f: Fields, c: Config) {
    stored.Some? && f.token.None? && !f.HasBasic() && SameConnection(stored.value, c)
  }

  /** An accepted write leaves the configuration that takes its fields, with an https endpoint. Its token id is the
      stored one if neither token nor connection changed hands, and none otherwise. */
  lemma AcceptedTakesFields(env: Env, stored: Option<Config>, create: bool, f: Fields)
    requires Accept(env, stored, create, f).Ok?
    ensures var c := Accept(env, stored, create, f).value;
            && TakesFields(c, stored, f) && NewClient(env, c).Ok? && Secure(env, NewClient(env, c).value)
            && (forall d :: TakesFields(d, stored, f) ==> d == c.(tokenId := d.tokenId))
            && c.tokenId == if KeepsToken(stored, f, c) then stored.value.tokenId else 0
  {
    var c := Merged(stored, f);
    AcceptedIsMerged(env, stored, create, f);
    var _, _, _ := BuiltIsSecure(env, c, AuthenticatorFromConfig(c).value);
    hide TakesFields; hide Accept; hide Secure; hide NewClientWithAuth; hide ConnectionChanged;
    forall d ensures TakesFields(d, stored, f) ==> d == c.(tokenId := d.tokenId) { MergedTakesFields(stored, f, d); }
    MergedTakesFields(stored, f, c);
  }

  lemma AcceptedIsMerged(env: Env, stored: Option<Config>, create: bool, f: Fields)
    requires Accept(env, stored, create, f).Ok?
    ensures Accept(env, stored, create, f).value == Merged(stored, f) && NewClient(env, Merged(stored, f)).Ok?
    ensures !(f.HasBearer() && f.HasBasic())
  {
    hide Merged; hide NewClient; hide ValidateAddress; hide ConnectionChanged;
  }

  /** A write is accepted if and only if there is something to update, a create gives an address, it gives one
      scheme at most, its rotation settings are valid, the configuration c that takes its fields has one complete
      scheme, a bearer token for automated rotation, an https address with a host and a readable CA, and an update
      that moves the connection gives a credential. */
  lemma AcceptedIff(env: Env, stored: Option<Config>, create: bool, f: Fields, c: Config)
    requires TakesFields(c, stored, f)
    ensures Accept(env, stored, create, f).Ok? <==>
              && (stored.Some? || create) && (create ==> f.address.Some?)
              && !(f.HasBearer() && f.HasBasic()) && f.rotation.Some?
              && ((c.token != "" && c.username == "" && c.password == "") || (c.token == "" && c.username != ""
                  && c.password != ""))
              && (c.rotation.shouldRegister ==> c.token != "")
              && (create || f.CredentialSupplied() || SameConnection(stored.value, c))
              && c.address != "" && (c.caCert == "" || env.parsesPem(c.caCert))
              && var u := env.parseUrl(NormalizeAddress(c.address));
                 u.Some? && u.value.scheme == "https" && u.value.host != ""
  {
    if !(f.HasBearer() && f.HasBasic()) {
      var m := Merged(stored, f);
      MergedTakesFields(stored, f, c);
      BuildsIff(env, m, Bearer(""));
      hide TakesFields; hide Merged; hide NormalizeAddress;
    }
  }

  /** The first reason that applies is the refusal, in the handler's order; c is the configuration that takes the
      fields. */
  lemma RefusedIff(env: Env, stored: Option<Config>, create: bool, f: Fields, c: Config)
    requires TakesFields(c, stored, f)
    ensures var r := Accept(env, stored, create, f);
            var basic := c.username != "" || c.password != "";
            && (r == Err(NotStored) <==> stored.None? && !create)
            && (r == Err(AddressRequired) <==> create && f.address.None?)
            && (stored.Some? || create ==> (create ==> f.address.Some?) ==> !(f.HasBearer() && f.HasBasic()) ==>
                  && (r == Err(BadRotation) <==> f.rotation.None?)
                  && (f.rotation.Some? ==>
                        && (r == Err(BothSchemes) <==> c.token != "" && basic)
                        && (r == Err(IncompleteBasic) <==> c.token == "" && basic && (c.username == "" || c.password == ""))
                        && (r == Err(NoCredential) <==> c.token == "" && !basic)))
            && (stored.Some? || create ==> (create ==> f.address.Some?) ==> f.HasBearer() && f.HasBasic() ==> r == Err(BothSchemes))
            && (r == Err(CredentialRequired) ==> stored.Some? && !create && !f.CredentialSupplied() && !SameConnection(stored.value, c))
            && (r == Err(RotationNeedsBearer) ==> c.rotation.shouldRegister && c.token == "")
  {
    if !(f.HasBearer() && f.HasBasic()) {
      MergedTakesFields(stored, f, c);
      hide TakesFields; hide Merged; hide NewClient; hide ValidateAddress; hide NormalizeAddress;
      hide NormalizeBasePath;
    }
  }

  /** A rotated configuration is as well formed as the one it came from. */
  lemma RotatedIsWellFormed(env: Env, c: Config, token: string, id: int)
    requires WellFormed(env, c) && c.token != "" && token != "" && id > 0
    ensures WellFormed(env, c.(token := token, tokenId := id))
  {
    BearerSwapBuilds(env, c, token, id);
  }
}
