/** The stored configuration over any run of writes, deletes and rotations. They exclude one another by
    configLock, so each is one event here. */
module ConfigRuns {
  import opened Wrappers
  import opened Client
  import opened ConfigWrite

  datatype Event =
    | Write(create: bool, fields: Fields, probeSucceeds: bool)
    | Delete
    | Rotate(secret: string, id: int)   // a rotation that reached its storage write

  /** The stored configuration, the connection its secret was last supplied or minted for, and the
      secret AAP issued for each root token id. */
  datatype History = History(config: Option<Config>, origin: Config, issued: map<int, string>)

  predicate Possible(h: History, e: Event) {
    e.Rotate? ==> e.secret != "" && e.id > 0 && e.id !in h.issued && h.config.Some? && h.config.value.token != ""
  }

  function Apply(env: Env, h: History, e: Event): History
    requires Possible(h, e)
  {
    match e
    case Delete => h.(config := None)
    case Rotate(secret, id) =>
      var c := h.config.value.(token := secret, tokenId := id);
      h.(config := Some(c), origin := c, issued := h.issued[id := secret])
    case Write(create, f, probeSucceeds) =>
      match Accept(env, h.config, create, f)
      case Err(_) => h
      case Ok(c) =>
        if !probeSucceeds then h
        else h.(config := Some(c), origin := if f.CredentialSupplied() then c else h.origin)
  }

  predicate ConfigInvariant(env: Env, h: History) {
    h.config.Some? ==>
      && WellFormed(env, h.config.value)
      && (h.config.value.tokenId > 0 ==>
            h.config.value.tokenId in h.issued && h.issued[h.config.value.tokenId] == h.config.value.token)
  }

  predicate Provenance(h: History) { h.config.Some? ==> SameConnection(h.origin, h.config.value) }

  /** The one write that carries a stored secret over to another connection: dispatched as a create while
      a configuration is stored. The existence check that chose "create" runs before configLock is taken. */
  predicate StaleCreateMovesSecret(env: Env, h: History, e: Event) {
    && e.Write? && e.create && e.probeSucceeds && h.config.Some? && !e.fields.CredentialSupplied()
    && Accept(env, h.config, true, e.fields).Ok?
    && ConnectionChanged(h.config, Some(Accept(env, h.config, true, e.fields).value))
  }

  /** Such a write exists: two operators race, one moves the endpoint without giving a credential. */
  lemma StaleCreateHappens() returns (env: Env, h: History, e: Event)
    ensures ConfigInvariant(env, h) && Provenance(h) && Possible(h, e)
    ensures StaleCreateMovesSecret(env, h, e) && !Provenance(Apply(env, h, e))
    ensures Apply(env, h, e).config.Some? && Apply(env, h, e).config.value.token == h.config.value.token
  {
    env := Env(text => Some(Url("https", text)), text => true, true);
    var stored := EMPTY_CONFIG.(address := "https://a", token := "secret", tokensApiPath := DEFAULT_TOKENS_API_PATH);
    h := History(Some(stored), stored, map[]);
    var fields := Fields(Some("https://b"), None, None, None, None, None, None, None, None, Some(Rotation(false)));
    e := Write(true, fields, true);
    var moved := stored.(address := "https://b");
    assert NormalizeAddress("https://a")[8] == 'a' && NormalizeAddress("https://b")[8] == 'b';
    assert Merged(h.config, e.fields) == moved;
    assert NewClient(env, stored).Ok? && NewClient(env, moved).Ok?;
    assert Accept(env, h.config, true, e.fields) == Ok(moved);
  }

  lemma StepKeepsConfig(env: Env, h: History, e: Event)
    requires ConfigInvariant(env, h) && Possible(h, e)
    ensures ConfigInvariant(env, Apply(env, h, e))
  {
    match e
    case Delete =>
    case Rotate(secret, id) => RotatedIsWellFormed(env, h.config.value, secret, id);
    case Write(create, f, _) =>
      if Accept(env, h.config, create, f).Ok? { AcceptedIsWellFormed(env, h.config, create, f); }
  }

  /** A step keeps provenance if and only if it is not that write. */
  lemma StepKeepsProvenance(env: Env, h: History, e: Event)
    requires ConfigInvariant(env, h) && Provenance(h) && Possible(h, e)
    ensures Provenance(Apply(env, h, e)) <==> !StaleCreateMovesSecret(env, h, e)
  {
    if e.Write? && Accept(env, h.config, e.create, e.fields).Ok? {
      var c := Accept(env, h.config, e.create, e.fields).value;
      if h.config.None? {
        // Nothing is kept from an absent configuration, so a complete scheme must have been supplied.
        assert e.fields.CredentialSupplied();
      } else {
        UnchangedConnectionSameEndpoint(env, h.origin, h.config.value, c);
        UnchangedConnectionSameEndpoint(env, h.config.value, h.origin, c);
      }
    }
  }

  predicate PossibleRun(env: Env, h: History, events: seq<Event>)
    decreases |events|
  {
    events == [] || (Possible(h, events[0]) && PossibleRun(env, Apply(env, h, events[0]), events[1..]))
  }

  function After(env: Env, h: History, events: seq<Event>): History
    requires PossibleRun(env, h, events)
    decreases |events|
  {
    if events == [] then h else After(env, Apply(env, h, events[0]), events[1..])
  }

  /** Creates in this run are dispatched only while nothing is stored. */
  predicate CreatesAreFresh(env: Env, h: History, events: seq<Event>)
    requires PossibleRun(env, h, events)
    decreases |events|
  {
    events == [] ||
    (&& (events[0].Write? && events[0].create ==> h.config.None?)
     && CreatesAreFresh(env, Apply(env, h, events[0]), events[1..]))
  }

  /** After any run, a stored configuration has exactly one complete scheme and an id only for the secret
      AAP issued under it; if creates were fresh, its secret was supplied for or minted on its connection. */
  lemma {:induction false} EveryRunKeepsConfig(env: Env, h: History, events: seq<Event>)
    requires PossibleRun(env, h, events) && ConfigInvariant(env, h)
    ensures ConfigInvariant(env, After(env, h, events))
    ensures Provenance(h) && CreatesAreFresh(env, h, events) ==> Provenance(After(env, h, events))
    decreases |events|
  {
    if events != [] {
      StepKeepsConfig(env, h, events[0]);
      if Provenance(h) { StepKeepsProvenance(env, h, events[0]); }
      EveryRunKeepsConfig(env, Apply(env, h, events[0]), events[1..]);
    }
  }
}
