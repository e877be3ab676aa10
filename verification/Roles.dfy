/** Issuance roles: what a write makes of the stored role, when it is refused, and what a renewal reads. */
module Roles {
  import opened Wrappers
  import opened Decimal

  /** TTLs are durations in nanoseconds. */
  datatype Role = Role(
    scope: string, description: string, ttl: int, maxTtl: int,
    username: string, bootstrapToken: string, application: string)

  const EMPTY_ROLE := Role("", "", 0, 0, "", "", "")
  const DEFAULT_SCOPE := "read"
  const NANOSECONDS := 1_000_000_000

  /** A TTL as the field schema hands it over: whole seconds, not negative, representable as a duration. */
  type TtlSeconds = n: int | 0 <= n <= MAX_INT64 / NANOSECONDS witness 0

  /** The fields present in a write. */
  datatype RoleFields = RoleFields(
    scope: Option<string>, description: Option<string>, username: Option<string>, bootstrapToken: Option<string>,
    application: Option<string>, ttl: Option<TtlSeconds>, maxTtl: Option<TtlSeconds>)

  datatype RoleError = MissingName | InvalidScope | UsernameNeedsBootstrap | TtlExceedsMax

  predicate ValidScope(scope: string) { scope == "read" || scope == "write" }

  /** What every stored role satisfies. */
  predicate ValidRole(r: Role) {
    && ValidScope(r.scope)
    && (r.username != "" ==> r.bootstrapToken != "")
    && (r.maxTtl != 0 ==> r.ttl <= r.maxTtl)
    && 0 <= r.ttl <= MAX_INT64 && 0 <= r.maxTtl <= MAX_INT64
  }

  // ----- Specification of a write

  function MergedRole(stored: Option<Role>, create: bool, f: RoleFields): Role {
    var base := stored.GetOr(EMPTY_ROLE);
    Role(f.scope.GetOr(if create then DEFAULT_SCOPE else base.scope),
         f.description.GetOr(base.description),
         if f.ttl.Some? then f.ttl.value * NANOSECONDS else base.ttl,
         if f.maxTtl.Some? then f.maxTtl.value * NANOSECONDS else base.maxTtl,
         f.username.GetOr(base.username),
         f.bootstrapToken.GetOr(base.bootstrapToken),
         f.application.GetOr(base.application))
  }

  function AcceptRole(stored: Option<Role>, create: bool, f: RoleFields): Result<Role, RoleError> {
    var r := MergedRole(stored, create, f);
    if !ValidScope(r.scope) then Err(InvalidScope)
    else if r.username != "" && r.bootstrapToken == "" then Err(UsernameNeedsBootstrap)
    else if r.maxTtl != 0 && r.ttl > r.maxTtl then Err(TtlExceedsMax)
    else Ok(r)
  }

  /** The assignments between the scope check and the bootstrap check. */
  method MergeIdentity(base: Role, f: RoleFields) returns (role: Role)
    ensures role == base.(
      description := f.description.GetOr(base.description), username := f.username.GetOr(base.username),
      bootstrapToken := f.bootstrapToken.GetOr(base.bootstrapToken),
          application := f.application.GetOr(base.application))
  {
    role := base;
    if f.description.Some? { role := role.(description := f.description.value); }
    if f.username.Some? { role := role.(username := f.username.value); }
    if f.bootstrapToken.Some? { role := role.(bootstrapToken := f.bootstrapToken.value); }
    if f.application.Some? { role := role.(application := f.application.value); }
  }

  /** pathRolesWrite between loading the role and storing it, in its own order of assignments and refusals. */
  method MergeRole(stored: Option<Role>, create: bool, f: RoleFields) returns (r: Result<Role, RoleError>)
    ensures r == AcceptRole(stored, create, f)
    ensures r.Ok? ==> TakesFields(r.value, stored, create, f)
  {
    hide TakesFields;
    var role := EMPTY_ROLE;
    if stored.Some? { role := stored.value; }
    if f.scope.Some? {
      role := role.(scope := f.scope.value);
    } else if create {
      role := role.(scope := DEFAULT_SCOPE);
    }
    if !ValidScope(role.scope) { return Err(InvalidScope); }
    role := MergeIdentity(role, f);
    if role.username != "" && role.bootstrapToken == "" { return Err(UsernameNeedsBootstrap); }
    if f.ttl.Some? { role := role.(ttl := f.ttl.value * NANOSECONDS); }
    if f.maxTtl.Some? { role := role.(maxTtl := f.maxTtl.value * NANOSECONDS); }
    if role.maxTtl != 0 && role.ttl > role.maxTtl { return Err(TtlExceedsMax); }
    r := Ok(role);
    AcceptedTakesFields(stored, create, f);
  }

  // ----- What it means

  /** Whatever was stored before, an accepted write leaves a valid role, and it is refused exactly when the
      merged role would not be one. */
  lemma AcceptedRoleIsValid(stored: Option<Role>, create: bool, f: RoleFields)
    requires stored.Some? ==> ValidRole(stored.value)
    ensures AcceptRole(stored, create, f).Ok? <==> ValidRole(MergedRole(stored, create, f))
    ensures AcceptRole(stored, create, f).Ok? ==> ValidRole(AcceptRole(stored, create, f).value)
  {
    var r := MergedRole(stored, create, f);
    if f.ttl.Some? { SecondsFit(f.ttl.value); }
    if f.maxTtl.Some? { SecondsFit(f.maxTtl.value); }
  }

  lemma SecondsFit(n: TtlSeconds)
    ensures 0 <= n * NANOSECONDS <= MAX_INT64
  {
  }

  /** A role that a write leaves: each field given is the role's, TTLs in seconds, and each field left out is
      what was stored before, but for the scope of a create, which defaults. */
  predicate TakesFields(r: Role, before: Option<Role>, create: bool, f: RoleFields) {
    var kept := if before.Some? then before.value else Role("", "", 0, 0, "", "", "");
    && (match f.scope case Some(x) => r.scope == x case None => r.scope == if create then "read" else kept.scope)
    && (match f.description case Some(x) => r.description == x case None => r.description == kept.description)
    && (match f.username case Some(x) => r.username == x case None => r.username == kept.username)
    && (match f.bootstrapToken case Some(x) => r.bootstrapToken == x case None => r.bootstrapToken == kept.bootstrapToken)
    && (match f.application case Some(x) => r.application == x case None => r.application == kept.application)
    && (match f.ttl case Some(x) => r.ttl == x * 1_000_000_000 case None => r.ttl == kept.ttl)
    && (match f.maxTtl case Some(x) => r.maxTtl == x * 1_000_000_000 case None => r.maxTtl == kept.maxTtl)
  }

  /** An accepted write leaves the one role that takes its fields. */
  lemma AcceptedTakesFields(stored: Option<Role>, create: bool, f: RoleFields)
    requires AcceptRole(stored, create, f).Ok?
    ensures forall r :: TakesFields(r, stored, create, f) <==> r == AcceptRole(stored, create, f).value
  {
  }

  /** Each refusal, in terms of what is given and what is stored. A write that gives both TTLs, and is refused for
      nothing else, is refused for them if and only if max_ttl is not zero and ttl exceeds it. */
  lemma RefusedIff(stored: Option<Role>, create: bool, f: RoleFields)
    ensures var kept := stored.GetOr(EMPTY_ROLE);
            var scope := f.scope.GetOr(if create then "read" else kept.scope);
            var orphaned := f.username.GetOr(kept.username) != "" && f.bootstrapToken.GetOr(kept.bootstrapToken) == "";
            var answer := AcceptRole(stored, create, f);
            && (answer == Err(InvalidScope) <==> scope != "read" && scope != "write")
            && (answer == Err(UsernameNeedsBootstrap) <==> (scope == "read" || scope == "write") && orphaned)
            && (f.ttl.Some? && f.maxTtl.Some? && (scope == "read" || scope == "write") && !orphaned ==>
                  (answer == Err(TtlExceedsMax) <==> f.maxTtl.value != 0 && f.ttl.value > f.maxTtl.value)
                  && (answer.Ok? <==> f.maxTtl.value == 0 || f.ttl.value <= f.maxTtl.value))
            && answer != Err(MissingName)
  {
  }

  /** An update over a stored role touches the supplied fields only; a second identical one changes nothing;
      and of two, the later wins field by field, as if both had been one write. */
  lemma UpdatesCompose(stored: Role, f: RoleFields, g: RoleFields)
    ensures MergedRole(Some(MergedRole(Some(stored), false, f)), false, f) == MergedRole(Some(stored), false, f)
    ensures MergedRole(Some(MergedRole(Some(stored), false, f)), false, g) == MergedRole(Some(stored), false,
        Overlay(f, g))
    ensures MergedRole(Some(stored), false, NO_FIELDS) == stored
  {
  }

  const NO_FIELDS := RoleFields(None, None, None, None, None, None, None)

  function Later<T>(first: Option<T>, second: Option<T>): Option<T> { if second.Some? then second else first }

  function Overlay(f: RoleFields, g: RoleFields): RoleFields {
    RoleFields(Later(f.scope, g.scope), Later(f.description, g.description), Later(f.username, g.username),
               Later(f.bootstrapToken, g.bootstrapToken), Later(f.application, g.application), Later(f.ttl, g.ttl),
               Later(f.maxTtl, g.maxTtl))
  }

  /** Vault decides create or update before the role's lock is taken. A write dispatched as a create that finds
      a role stored treats it as an update does, except for one field: it resets an omitted scope, so
      it differs from an update exactly when no scope is given and the stored one is not the default. */
  lemma StaleCreateResetsScopeIff(stored: Role, f: RoleFields)
    requires ValidRole(stored)
    ensures AcceptRole(Some(stored), true, f) != AcceptRole(Some(stored), false, f) ==> f.scope == None && stored.scope != DEFAULT_SCOPE
    ensures AcceptRole(Some(stored), true, f).Ok? ==>
              (AcceptRole(Some(stored), true, f) != AcceptRole(Some(stored), false, f) <==> f.scope == None && stored.scope == "write")
    ensures f.scope == None ==> (MergedRole(None, false, f).scope == "" && AcceptRole(None, false, f) == Err(InvalidScope))
  {
  }
}
