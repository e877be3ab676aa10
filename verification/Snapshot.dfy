/** The snapshot of the connection that travels in a lease's internal data and in a WAL record, and
    how revocation reads it back after the JSON round trip through Vault's storage. */
module Snapshot {
  import opened Wrappers
  import opened Decimal
  import opened Client

  /** A Go interface value. Float holds a float64, Number a json.Number. */
  datatype Value = Str(s: string) | Bool(b: bool) | Int(n: int) | Int64(n: int) | Number(text: string)
      | Float(r: real) | Other

  /** The keys of a stored snapshot; see KeyName for their text. */
  datatype Key = TOKEN_ID | ROLE | ADDRESS | TOKEN | USERNAME | PASSWORD | TOKENS_API_PATH | CA_CERT
               | SKIP_TLS_VERIFY | REQUEST_TIMEOUT | Unread(name: string)

  type Data = map<Key, Value>

  function KeyName(k: Key): string {
    match k
    case TOKEN_ID => "token_id"
    case ROLE => "role"
    case ADDRESS => "revocation_address"
    case TOKEN => "revocation_token"
    case USERNAME => "revocation_username"
    case PASSWORD => "revocation_password"
    case TOKENS_API_PATH => "revocation_tokens_api_path"
    case CA_CERT => "revocation_ca_cert"
    case SKIP_TLS_VERIFY => "revocation_skip_tls_verify"
    case REQUEST_TIMEOUT => "revocation_request_timeout"
    case Unread(name) => name
  }

  /** int64(d.Seconds()), exact for durations that are whole numbers of seconds. */
  function Seconds(d: int): int
    requires d > 0
  {
    d / SECOND
  }

  predicate WholeSeconds(d: int) { d <= 0 || d % SECOND == 0 }

  function WrapInt64(n: int): int {
    (n - MIN_INT64) % (MAX_INT64 - MIN_INT64 + 1) + MIN_INT64
  }

  // ----- Encoding

  function AddRevocation(data: Data, config: Option<Config>): Data {
    match config
    case None => data
    case Some(c) =>
      var data := data[ADDRESS := Str(c.address)][TOKEN := Str(c.token)][USERNAME := Str(c.username)]
                      [PASSWORD := Str(c.password)][TOKENS_API_PATH := Str(c.tokensApiPath)]
                      [CA_CERT := Str(c.caCert)][SKIP_TLS_VERIFY := Bool(c.skipTlsVerify)];
      if c.requestTimeout > 0 then data[REQUEST_TIMEOUT := Int64(Seconds(c.requestTimeout))] else data
  }

  function LeaseData(id: int, role: string, config: Option<Config>): Data {
    AddRevocation(map[TOKEN_ID := Str(FormatInt(id)), ROLE := Str(role)], config)
  }

  const SNAPSHOT_KEYS := {ADDRESS, TOKEN, USERNAME, PASSWORD, TOKENS_API_PATH, CA_CERT, SKIP_TLS_VERIFY,
      REQUEST_TIMEOUT}

  /** The lease's internal data, filled in place. */
  class InternalData {
    var fields: Data

    constructor (id: int, role: string)
      ensures fields == LeaseData(id, role, None)
    {
      fields := map[TOKEN_ID := Str(FormatInt(id)), ROLE := Str(role)];
    }

    /** What is stored reads back, from either decoder, as this configuration's snapshot; the lease's own
        fields stay. */
    method AddRevocationData(config: Option<Config>)
      modifies this
      ensures fields == AddRevocation(old(fields), config)
      ensures forall k :: k in old(fields) && k !in SNAPSHOT_KEYS ==> k in fields && fields[k] == old(fields)[k]
      ensures REQUEST_TIMEOUT !in old(fields) && config.Some? && config.value.requestTimeout <= MAX_INT64 ==>
                forall keepText :: ReadsBack(JsonRoundTrip(fields, keepText), config.value)
    {
      if config == None { return; }
      AddedHolds(fields, config.value);
      var c := config.value;
      fields := fields[ADDRESS := Str(c.address)];
      fields := fields[TOKEN := Str(c.token)];
      fields := fields[USERNAME := Str(c.username)];
      fields := fields[PASSWORD := Str(c.password)];
      fields := fields[TOKENS_API_PATH := Str(c.tokensApiPath)];
      fields := fields[CA_CERT := Str(c.caCert)];
      fields := fields[SKIP_TLS_VERIFY := Bool(c.skipTlsVerify)];
      if c.requestTimeout > 0 {
        fields := fields[REQUEST_TIMEOUT := Int64(Seconds(c.requestTimeout))];
      }
    }
  }

  datatype WalToken = WalToken(
    tokenId: string, role: string, address: string, token: string, username: string, password: string,
    tokensApiPath: string, caCert: string, skipTlsVerify: bool, requestTimeout: int)

  function WalRecord(tokenId: string, role: string, config: Option<Config>): WalToken {
    match config
    case None => WalToken(tokenId, role, "", "", "", "", "", "", false, 0)
    case Some(c) =>
      WalToken(tokenId, role, c.address, c.token, c.username, c.password, c.tokensApiPath, c.caCert,
               c.skipTlsVerify, if c.requestTimeout > 0 then Seconds(c.requestTimeout) else 0)
  }

  /** What is stored reads back, from either decoder, as this configuration's snapshot. */
  method NewWalToken(tokenId: string, role: string, config: Option<Config>) returns (token: WalToken)
    ensures token == WalRecord(tokenId, role, config)
    ensures config.Some? && config.value.requestTimeout <= MAX_INT64 ==>
              forall keepText :: ReadsBack(JsonRoundTrip(WalFields(token), keepText), config.value)
    ensures config.None? ==> forall keepText :: DecodeSnapshot(JsonRoundTrip(WalFields(token), keepText)) == Err(EmptyAddress)
  {
    RecordReadsBack(tokenId, role, config);
    token := WalToken(tokenId, role, "", "", "", "", "", "", false, 0);
    if config == None { return; }
    var c := config.value;
    token := token.(address := c.address);
    token := token.(token := c.token);
    token := token.(username := c.username);
    token := token.(password := c.password);
    token := token.(tokensApiPath := c.tokensApiPath);
    token := token.(caCert := c.caCert);
    token := token.(skipTlsVerify := c.skipTlsVerify);
    if c.requestTimeout > 0 {
      token := token.(requestTimeout := Seconds(c.requestTimeout));
    }
  }

  /** The record's JSON fields; the timeout is tagged omitempty. */
  function WalFields(w: WalToken): Data {
    var data := map[TOKEN_ID := Str(w.tokenId), ROLE := Str(w.role), ADDRESS := Str(w.address), TOKEN := Str(w.token),
                    USERNAME := Str(w.username), PASSWORD := Str(w.password), TOKENS_API_PATH := Str(w.tokensApiPath),
                    CA_CERT := Str(w.caCert), SKIP_TLS_VERIFY := Bool(w.skipTlsVerify)];
    if w.requestTimeout == 0 then data else data[REQUEST_TIMEOUT := Int64(w.requestTimeout)]
  }

  /** Written as JSON and decoded again, a number comes back as a float64 or, from a decoder that keeps
      number text, as a json.Number. */
  function JsonValue(v: Value, keepText: bool): Value {
    match v
    case Int64(n) => if keepText then Number(FormatInt(n)) else Float(RoundToFloat64(n) as real)
    case _ => v
  }

  function JsonRoundTrip(data: Data, keepText: bool): Data {
    map k | k in data :: JsonValue(data[k], keepText)
  }

  // ----- Decoding

  datatype DecodeError = EmptyAddress | Malformed | MissingTokenId

  /** int64(v) of a float64; Go leaves an out-of-range result to the implementation. */
  function TruncateFloat(r: real): int {
    var n := if r < 0.0 then -((-r).Floor) else r.Floor;
    if IsInt64(n) then n else MIN_INT64
  }

  function CoerceInt64(v: Value): Result<int, DecodeError> {
    match v
    case Str(s) => (match ParseInt(s) case Ok(n) => Ok(n) case Err(_) => Err(Malformed))
    case Number(s) => (match ParseInt(s) case Ok(n) => Ok(n) case Err(_) => Err(Malformed))
    case Int64(n) => Ok(n)
    case Int(n) => Ok(n)
    case Float(r) => Ok(TruncateFloat(r))
    case _ => Err(Malformed)
  }

  function OptionalInt64(data: Data, key: Key): Result<Option<int>, DecodeError> {
    if key !in data then Ok(None)
    else
      match data[key]
      case Int(n) => Ok(Some(n))
      case Int64(n) => Ok(Some(n))
      case Float(r) =>
        if r != RoundToFloat64(TruncateFloat(r)) as real then Err(Malformed) else Ok(Some(TruncateFloat(r)))
      case v => (match CoerceInt64(v) case Ok(n) => Ok(Some(n)) case Err(e) => Err(e))
  }

  function OptionalString(data: Data, key: Key): Result<string, DecodeError> {
    if key !in data then Ok("")
    else match data[key] case Str(s) => Ok(s) case _ => Err(Malformed)
  }

  predicate StringOrAbsent(data: Data, key: Key) { OptionalString(data, key).Ok? }

  const CREDENTIAL_KEYS := {TOKEN, USERNAME, PASSWORD, CA_CERT}

  /** Ok(None) is the legacy snapshot: revoke with the current configuration. */
  function DecodeSnapshot(data: Data): Result<Option<Config>, DecodeError> {
    if ADDRESS !in data && TOKEN !in data then Ok(None)
    else
      match OptionalString(data, ADDRESS)
      case Err(e) => Err(e)
      case Ok(address) =>
        if address == "" then Err(EmptyAddress)
        else if exists key :: key in CREDENTIAL_KEYS && !StringOrAbsent(data, key) then Err(Malformed)
        else
          match OptionalString(data, TOKENS_API_PATH)
          case Err(e) => Err(e)
          case Ok(path) =>
            if SKIP_TLS_VERIFY in data && !data[SKIP_TLS_VERIFY].Bool? then Err(Malformed)
            else
              match OptionalInt64(data, REQUEST_TIMEOUT)
              case Err(e) => Err(e)
              case Ok(seconds) =>
                assert StringOrAbsent(data, TOKEN) && StringOrAbsent(data, USERNAME);
                assert StringOrAbsent(data, PASSWORD) && StringOrAbsent(data, CA_CERT);
                Ok(Some(EMPTY_CONFIG.(
                  address := address,
                  token := OptionalString(data, TOKEN).value,
                  username := OptionalString(data, USERNAME).value,
                  password := OptionalString(data, PASSWORD).value,
                  caCert := OptionalString(data, CA_CERT).value,
                  tokensApiPath := if path == "" then DEFAULT_TOKENS_API_PATH else path,
                  skipTlsVerify := SKIP_TLS_VERIFY in data && data[SKIP_TLS_VERIFY].b,
                  requestTimeout := if seconds.Some? && seconds.value > 0 then WrapInt64(seconds.value * SECOND) else 0)))
  }

  /** configFromRevocationData; Go ranges over its destination map in an unspecified order. */
  method ConfigFromRevocationData(data: Data) returns (r: Result<Option<Config>, DecodeError>)
    ensures r == DecodeSnapshot(data)
  {
    if ADDRESS !in data {
      if TOKEN !in data { return Ok(None); }
    }
    var address := OptionalString(data, ADDRESS);
    if address.Err? { return Err(address.error); }
    if address.value == "" { return Err(EmptyAddress); }

    var config := EMPTY_CONFIG.(address := address.value, tokensApiPath := DEFAULT_TOKENS_API_PATH);
    var remaining := CREDENTIAL_KEYS;
    while remaining != {}
      invariant remaining <= CREDENTIAL_KEYS
      invariant forall key :: key in CREDENTIAL_KEYS - remaining ==> StringOrAbsent(data, key)
      invariant TOKEN !in remaining ==> OptionalString(data, TOKEN) == Ok(config.token)
      invariant USERNAME !in remaining ==> OptionalString(data, USERNAME) == Ok(config.username)
      invariant PASSWORD !in remaining ==> OptionalString(data, PASSWORD) == Ok(config.password)
      invariant CA_CERT !in remaining ==> OptionalString(data, CA_CERT) == Ok(config.caCert)
      invariant config == EMPTY_CONFIG.(address := address.value, tokensApiPath := DEFAULT_TOKENS_API_PATH,
                  token := config.token, username := config.username, password := config.password,
                      caCert := config.caCert)
    {
      var key :| key in remaining;
      var v := OptionalString(data, key);
      if v.Err? {
        assert !StringOrAbsent(data, key);
        return Err(v.error);
      }
      assert StringOrAbsent(data, key);
      if key == TOKEN { config := config.(token := v.value); }
      else if key == USERNAME { config := config.(username := v.value); }
      else if key == PASSWORD { config := config.(password := v.value); }
      else { config := config.(caCert := v.value); }
      remaining := remaining - {key};
    }

    if TOKENS_API_PATH in data {
      if !data[TOKENS_API_PATH].Str? { return Err(Malformed); }
      if data[TOKENS_API_PATH].s != "" { config := config.(tokensApiPath := data[TOKENS_API_PATH].s); }
    }
    if SKIP_TLS_VERIFY in data {
      if !data[SKIP_TLS_VERIFY].Bool? { return Err(Malformed); }
      config := config.(skipTlsVerify := data[SKIP_TLS_VERIFY].b);
    }
    var seconds := OptionalInt64(data, REQUEST_TIMEOUT);
    if seconds.Err? { return Err(seconds.error); }
    if seconds.value.Some? && seconds.value.value > 0 {
      config := config.(requestTimeout := WrapInt64(seconds.value.value * SECOND));
    }
    return Ok(Some(config));
  }

  // ----- Which stored data is a snapshot

  /** A count of seconds as storage may hold it: an integer, decimal text of one, or a float64 without a fraction. */
  predicate HoldsSeconds(v: Value, n: int) {
    match v
    case Int(m) => m == n
    case Int64(m) => m == n
    case Str(text) => ParseInt(text) == Ok(n)
    case Number(text) => ParseInt(text) == Ok(n)
    case Float(r) => n == TruncateFloat(r) && r == RoundToFloat64(n) as real
    case _ => false
  }

  predicate HasTextFor(data: Data, key: Key, text: string) { if key in data then data[key] == Str(text) else text == "" }

  /** Stored data decodes to this configuration if and only if it has a non-empty address, every other key it has is of
      its kind, and the configuration is made of exactly these values, an absent or empty API path meaning the
      default, and an absent or non-positive timeout meaning none. */
  lemma DecodesIff(data: Data, c: Config)
    ensures DecodeSnapshot(data) == Ok(Some(c)) <==>
              && ADDRESS in data && c.address != "" && HasTextFor(data, ADDRESS, c.address)
              && HasTextFor(data, TOKEN, c.token) && HasTextFor(data, USERNAME, c.username)
              && HasTextFor(data, PASSWORD, c.password) && HasTextFor(data, CA_CERT, c.caCert)
              && (exists path: string :: HasTextFor(data, TOKENS_API_PATH, path) && c.tokensApiPath == if path == "" then DEFAULT_TOKENS_API_PATH else path)
              && (if SKIP_TLS_VERIFY in data then data[SKIP_TLS_VERIFY] == Bool(c.skipTlsVerify) else !c.skipTlsVerify)
              && (if REQUEST_TIMEOUT in data
                  then exists n: int :: HoldsSeconds(data[REQUEST_TIMEOUT], n) && c.requestTimeout == if n > 0 then WrapInt64(n * SECOND) else 0
                  else c.requestTimeout == 0)
              && c.tokenDescriptionPrefix == "" && c.rotation == Rotation(false) && c.tokenId == 0
  {
    hide ParseInt; hide RoundToFloat64; hide WrapInt64; hide TruncateFloat;
    assert {TOKEN, USERNAME, PASSWORD, CA_CERT} == CREDENTIAL_KEYS;
    if REQUEST_TIMEOUT in data { SecondsIff(data); }
    if TOKENS_API_PATH in data && data[TOKENS_API_PATH].Str? { assert HasTextFor(data, TOKENS_API_PATH, data[TOKENS_API_PATH].s); }
    assert TOKENS_API_PATH !in data ==> HasTextFor(data, TOKENS_API_PATH, "");
  }

  lemma SecondsIff(data: Data)
    requires REQUEST_TIMEOUT in data
    ensures forall n :: OptionalInt64(data, REQUEST_TIMEOUT) == Ok(Some(n)) <==> HoldsSeconds(data[REQUEST_TIMEOUT], n)
    ensures OptionalInt64(data, REQUEST_TIMEOUT) != Ok(None)
  {
    hide ParseInt; hide RoundToFloat64; hide TruncateFloat;
  }

  /** The fallback to the current configuration is for data with neither address nor token, and nothing else. */
  lemma LegacyIff(data: Data)
    ensures DecodeSnapshot(data) == Ok(None) <==> ADDRESS !in data && TOKEN !in data
    ensures DecodeSnapshot(data) == Err(EmptyAddress) <==>
              (ADDRESS in data || TOKEN in data) && (ADDRESS in data ==> data[ADDRESS] == Str(""))
  {
    hide ParseInt; hide RoundToFloat64; hide TruncateFloat;
  }

  /** No two keys have the same text. */
  lemma KeyNamesDiffer(a: Key, b: Key)
    requires !a.Unread? && !b.Unread? && KeyName(a) == KeyName(b)
    ensures a == b
  {
    assert |KeyName(a)| == |KeyName(b)|;
    assert |KeyName(TOKENS_API_PATH)| == 26 && |KeyName(SKIP_TLS_VERIFY)| == 26;
    assert KeyName(TOKENS_API_PATH)[11] == 't' && KeyName(SKIP_TLS_VERIFY)[11] == 's';
    assert |KeyName(REQUEST_TIMEOUT)| == 26 && KeyName(REQUEST_TIMEOUT)[11] == 'r';
    assert KeyName(USERNAME)[11] == 'u' && KeyName(PASSWORD)[11] == 'p';
  }

  // ----- What a stored snapshot revokes, and with which client

  /** The id to delete, and the snapshot client if one can be built. */
  datatype Target = Target(id: int, client: Option<AapClient>)

  function TargetWith(env: Env, id: int, data: Data): Result<Target, DecodeError> {
    match DecodeSnapshot(data)
    case Err(e) => Err(e)
    case Ok(None) => Ok(Target(id, None))
    case Ok(Some(config)) => Ok(Target(id, match NewClient(env, config) case Ok(c) => Some(c) case Err(_) => None))
  }

  /** tokenRevoke: any of the id's historical forms. */
  function LeaseTarget(env: Env, data: Data): Result<Target, DecodeError> {
    if TOKEN_ID !in data then Err(MissingTokenId)
    else match CoerceInt64(data[TOKEN_ID])
         case Err(e) => Err(e)
         case Ok(id) => TargetWith(env, id, data)
  }

  /** walRollback: the id must be a string. */
  function WalTarget(env: Env, data: Data): Result<Target, DecodeError> {
    if TOKEN_ID !in data || !data[TOKEN_ID].Str? then Err(MissingTokenId)
    else match ParseInt(data[TOKEN_ID].s)
         case Err(_) => Err(Malformed)
         case Ok(id) => TargetWith(env, id, data)
  }

  // ----- Round trips

  /** An int64 count of nanoseconds is below 2^53 seconds, so its seconds survive as a float64. */
  lemma SecondsSurvive(d: int, keepText: bool)
    requires 0 < d <= MAX_INT64
    ensures OptionalInt64(map[REQUEST_TIMEOUT := JsonValue(Int64(Seconds(d)), keepText)],
        REQUEST_TIMEOUT) == Ok(Some(Seconds(d)))
    ensures WholeSeconds(d) ==> WrapInt64(Seconds(d) * SECOND) == d
  {
    var n := Seconds(d);
    FloatKeepsExactly(n);
    FormatParse(n);
    assert (n as real).Floor == n;
  }

  /** What is left of a timeout after its snapshot: whole seconds, or unset. */
  function DecodedTimeout(d: int): int {
    if d > 0 && Seconds(d) > 0 then WrapInt64(Seconds(d) * SECOND) else 0
  }

  lemma DecodedTimeoutWhole(d: int)
    requires d <= MAX_INT64
    ensures d <= 0 ==> DecodedTimeout(d) == 0
    ensures d > 0 && WholeSeconds(d) ==> DecodedTimeout(d) == d
    ensures d > 0 && !WholeSeconds(d) ==> DecodedTimeout(d) != d && (DecodedTimeout(d) == 0 ==> d < SECOND)
  {
    if d > 0 {
      var n := d / SECOND;
      assert d == n * SECOND + d % SECOND;
      assert WrapInt64(n * SECOND) == n * SECOND;
    }
  }

  /** The decoded snapshot of a configuration with a non-empty address. */
  function Decoded(config: Config): Config {
    EMPTY_CONFIG.(
      address := config.address, token := config.token, username := config.username, password := config.password,
      caCert := config.caCert, skipTlsVerify := config.skipTlsVerify,
      tokensApiPath := if config.tokensApiPath == "" then DEFAULT_TOKENS_API_PATH else config.tokensApiPath,
      requestTimeout := DecodedTimeout(config.requestTimeout))
  }

  /** The stored fields that hold a snapshot of this configuration. */
  predicate Holds(data: Data, config: Config, keepText: bool) {
    && {ADDRESS, TOKEN, USERNAME, PASSWORD, TOKENS_API_PATH, CA_CERT, SKIP_TLS_VERIFY} <= data.Keys
    && data[ADDRESS] == Str(config.address) && data[TOKEN] == Str(config.token)
    && data[USERNAME] == Str(config.username) && data[PASSWORD] == Str(config.password)
    && data[TOKENS_API_PATH] == Str(config.tokensApiPath) && data[CA_CERT] == Str(config.caCert)
    && data[SKIP_TLS_VERIFY] == Bool(config.skipTlsVerify)
    && (REQUEST_TIMEOUT in data ==>
          config.requestTimeout > 0
              && data[REQUEST_TIMEOUT] == JsonValue(Int64(Seconds(config.requestTimeout)), keepText))
    && (REQUEST_TIMEOUT !in data ==> config.requestTimeout <= 0 || Seconds(config.requestTimeout) == 0)
  }

  /** Stored fields from which revocation gets this configuration's snapshot back. */
  predicate ReadsBack(data: Data, config: Config) {
    DecodeSnapshot(data) == if config.address == "" then Err(EmptyAddress) else Ok(Some(Decoded(config)))
  }

  lemma AddedHolds(data: Data, config: Config)
    ensures REQUEST_TIMEOUT !in data && config.requestTimeout <= MAX_INT64 ==>
              forall keepText :: ReadsBack(JsonRoundTrip(AddRevocation(data, Some(config)), keepText), config)
  {
    if REQUEST_TIMEOUT !in data && config.requestTimeout <= MAX_INT64 {
      forall keepText
        ensures ReadsBack(JsonRoundTrip(AddRevocation(data, Some(config)), keepText), config)
      {
        AddedHoldsIn(data, config, keepText);
        SnapshotDecodes(JsonRoundTrip(AddRevocation(data, Some(config)), keepText), config, keepText);
      }
    }
  }

  lemma AddedHoldsIn(data: Data, config: Config, keepText: bool)
    requires REQUEST_TIMEOUT !in data
    ensures Holds(JsonRoundTrip(AddRevocation(data, Some(config)), keepText), config, keepText)
  {
  }

  lemma RecordReadsBack(tokenId: string, role: string, config: Option<Config>)
    ensures config.Some? && config.value.requestTimeout <= MAX_INT64 ==>
              forall keepText :: ReadsBack(JsonRoundTrip(WalFields(WalRecord(tokenId, role, config)), keepText), config.value)
    ensures config.None? ==>
              forall keepText :: DecodeSnapshot(JsonRoundTrip(WalFields(WalRecord(tokenId, role, config)), keepText)) == Err(EmptyAddress)
  {
    if config.None? {
      forall keepText
        ensures DecodeSnapshot(JsonRoundTrip(WalFields(WalRecord(tokenId, role, config)),
            keepText)) == Err(EmptyAddress)
      {
        assert JsonRoundTrip(WalFields(WalRecord(tokenId, role, config)), keepText)[ADDRESS] == Str("");
      }
    } else if config.value.requestTimeout <= MAX_INT64 {
      forall keepText
        ensures ReadsBack(JsonRoundTrip(WalFields(WalRecord(tokenId, role, config)), keepText), config.value)
      {
        WalRecordHolds(tokenId, role, config.value, keepText);
        SnapshotDecodes(JsonRoundTrip(WalFields(WalRecord(tokenId, role, config)), keepText), config.value, keepText);
      }
    }
  }

  lemma WalRecordHolds(tokenId: string, role: string, config: Config, keepText: bool)
    ensures Holds(JsonRoundTrip(WalFields(WalRecord(tokenId, role, Some(config))), keepText), config, keepText)
  {
  }

  lemma SnapshotsHold(id: int, role: string, config: Config, keepText: bool)
    ensures Holds(JsonRoundTrip(LeaseData(id, role, Some(config)), keepText), config, keepText)
    ensures Holds(JsonRoundTrip(WalFields(WalRecord(FormatInt(id), role, Some(config))), keepText), config, keepText)
  {
    hide Holds; hide JsonRoundTrip; hide WalFields; hide AddRevocation;
    AddedHoldsIn(map[TOKEN_ID := Str(FormatInt(id)), ROLE := Str(role)], config, keepText);
    WalRecordHolds(FormatInt(id), role, config, keepText);
  }

  lemma SnapshotDecodes(data: Data, config: Config, keepText: bool)
    requires config.requestTimeout <= MAX_INT64 && Holds(data, config, keepText)
    ensures DecodeSnapshot(data) == if config.address == "" then Err(EmptyAddress) else Ok(Some(Decoded(config)))
  {
    assert forall key :: key in CREDENTIAL_KEYS ==> StringOrAbsent(data, key);
    if REQUEST_TIMEOUT in data {
      SecondsSurvive(config.requestTimeout, keepText);
      assert OptionalInt64(data, REQUEST_TIMEOUT) == Ok(Some(Seconds(config.requestTimeout)));
    }
  }

  /** The rebuilt client is the minting client exactly when the timeout is a whole number of seconds
      (or unset); the empty API path and the omitted timeout make no difference. */
  lemma DecodedClient(env: Env, config: Config)
    requires config.requestTimeout <= MAX_INT64
    ensures NewClient(env, config).Ok? <==> NewClient(env, Decoded(config)).Ok?
    ensures NewClient(env, config).Ok? ==>
              var rebuilt := NewClient(env, Decoded(config)).value;
              && rebuilt.auth == NewClient(env, config).value.auth
              && (rebuilt == NewClient(env, config).value <==> WholeSeconds(config.requestTimeout))
  {
    DecodedTimeoutWhole(config.requestTimeout);
    assert NormalizeBasePath("") == NormalizeBasePath(DEFAULT_TOKENS_API_PATH);
  }

  function StoredLease(id: int, role: string, config: Option<Config>, keepText: bool): Data {
    JsonRoundTrip(LeaseData(id, role, config), keepText)
  }

  function StoredWal(id: int, role: string, config: Option<Config>, keepText: bool): Data {
    JsonRoundTrip(WalFields(WalRecord(FormatInt(id), role, config)), keepText)
  }

  /** A lease names its role for renewals. */
  lemma LeaseNamesRole(id: int, role: string, config: Option<Config>, keepText: bool)
    ensures ROLE in StoredLease(id, role, config, keepText)
        && StoredLease(id, role, config, keepText)[ROLE] == Str(role)
  {
  }

  function ClientOf(env: Env, config: Config): Option<AapClient> {
    match NewClient(env, config) case Ok(c) => Some(c) case Err(_) => None
  }

  lemma TargetIsRead(env: Env, data: Data, id: int, config: Config, keepText: bool)
    requires IsInt64(id) && config.requestTimeout <= MAX_INT64 && WholeSeconds(config.requestTimeout)
    requires Holds(data, config, keepText) && TOKEN_ID in data && data[TOKEN_ID] == Str(FormatInt(id))
    ensures LeaseTarget(env, data) == if config.address == "" then Err(EmptyAddress) else Ok(Target(id, ClientOf(env, config)))
    ensures WalTarget(env, data) == if config.address == "" then Err(EmptyAddress) else Ok(Target(id, ClientOf(env, config)))
  {
    hide Holds; hide DecodeSnapshot; hide NewClient; hide Decoded;
    FormatParse(id);
    SnapshotDecodes(data, config, keepText);
    DecodedClient(env, config);
  }

  lemma StoredIds(id: int, role: string, config: Option<Config>, keepText: bool)
    ensures TOKEN_ID in StoredLease(id, role, config, keepText)
        && StoredLease(id, role, config, keepText)[TOKEN_ID] == Str(FormatInt(id))
    ensures TOKEN_ID in StoredWal(id, role, config, keepText)
        && StoredWal(id, role, config, keepText)[TOKEN_ID] == Str(FormatInt(id))
  {
  }

  /** Both stored forms of a minted token revoke that very token, with a client that behaves as the
      minting one did; only a snapshot without an address is refused, and its client did not build. */
  lemma SnapshotRoundTrip(env: Env, id: int, role: string, config: Config, keepText: bool)
    requires IsInt64(id) && config.requestTimeout <= MAX_INT64 && WholeSeconds(config.requestTimeout)
    ensures LeaseTarget(env, StoredLease(id, role, Some(config), keepText)) ==
            if config.address == "" then Err(EmptyAddress) else Ok(Target(id, ClientOf(env, config)))
    ensures WalTarget(env, StoredWal(id, role, Some(config), keepText)) ==
            if config.address == "" then Err(EmptyAddress) else Ok(Target(id, ClientOf(env, config)))
  {
    hide Holds; hide LeaseTarget; hide WalTarget; hide JsonRoundTrip; hide LeaseData; hide WalFields; hide ClientOf;
    SnapshotsHold(id, role, config, keepText);
    StoredIds(id, role, Some(config), keepText);
    TargetIsRead(env, StoredLease(id, role, Some(config), keepText), id, config, keepText);
    TargetIsRead(env, StoredWal(id, role, Some(config), keepText), id, config, keepText);
  }

  /** Without a configuration the two forms part: a lease falls back to the current configuration, a
      WAL record carries an empty address and can never be rolled back. */
  lemma SnapshotOfNothing(env: Env, id: int, role: string, keepText: bool)
    requires IsInt64(id)
    ensures LeaseTarget(env, StoredLease(id, role, None, keepText)) == Ok(Target(id, None))
    ensures WalTarget(env, StoredWal(id, role, None, keepText)) == Err(EmptyAddress)
  {
    FormatParse(id);
    var lease, record := StoredLease(id, role, None, keepText), StoredWal(id, role, None, keepText);
    assert ADDRESS !in lease && TOKEN !in lease && lease[TOKEN_ID] == Str(FormatInt(id));
    assert record[ADDRESS] == Str("") && record[TOKEN_ID] == Str(FormatInt(id));
  }

  /** A legacy lease that stored its id as a number revokes the right token when the decoder kept the
      text, and otherwise exactly when the id is a float64; up to 2^53 every id is. */
  lemma LegacyLeaseId(id: int, keepText: bool)
    requires 0 < id <= MAX_INT64
    ensures CoerceInt64(JsonValue(Int64(id), keepText)) == Ok(id) <==> keepText || RoundToFloat64(id) == id
    ensures id <= TWO_TO_THE_53 ==> CoerceInt64(JsonValue(Int64(id), keepText)) == Ok(id)
  {
    FormatParse(id);
    FloatKeepsExactly(id);
    assert (RoundToFloat64(id) as real).Floor == RoundToFloat64(id);
  }
}
