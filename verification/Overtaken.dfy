/** The bound on the guards is sharp. For any role and configuration whose guards and two storage calls can
    take as long as the minimum age, a timed run in which nothing fails hands out a lease for a token that a
    rollback has already deleted. */
module Overtaken {
  import opened Wrappers
  import opened Client
  import opened Snapshot
  import opened ConfigWrite
  import opened Marker
  import opened Aap
  import opened Roles
  import opened Protocol
  import opened Invariant
  import opened Lifecycle
  import opened Windows
  import opened Clock
  import opened LiveLeases

  lemma {:induction false} RunsOneMore(x: Timed, steps: seq<(Action, int)>, a: Action, time: int)
    requires PossibleTimes(x, steps) && OnTime(TimedRun(x, steps), time) && OldEnough(TimedRun(x, steps), a, time)
    ensures PossibleTimes(x, steps + [(a, time)])
    ensures TimedRun(x, steps + [(a, time)]) == Tick(TimedRun(x, steps), a, time)
    decreases |steps|
  {
    hide Tick; hide OnTime; hide OldEnough;
    if steps == [] {
      assert steps + [(a, time)] == [(a, time)];
    } else {
      RunsOneMore(Tick(x, steps[0].0, steps[0].1), steps[1..], a, time);
      assert (steps + [(a, time)])[1..] == steps[1..] + [(a, time)];
    }
  }

  lemma TickReaches(x: Timed, a: Action, time: int)
    requires TimedReachable(x) && OnTime(x, time) && OldEnough(x, a, time)
    ensures TimedReachable(Tick(x, a, time))
  {
    hide Tick; hide OnTime; hide OldEnough; hide PossibleTimes; hide TimedRun; hide FreshMount;
    var x0: Timed, steps: seq<(Action, int)> :| FreshMount(x0) && PossibleTimes(x0, steps) && x == TimedRun(x0, steps);
    RunsOneMore(x0, steps, a, time);
  }

  // ----- The setting

  /** A role, and a configuration that an operator can write on a fresh mount. */
  datatype Setting = Setting(env: Env, fields: Fields, config: Config, role: Role)

  predicate Writable(k: Setting) { Accept(k.env, None, true, k.fields) == Ok(k.config) }

  function Secret(k: Setting): string { k.config.token + k.role.bootstrapToken + "x" }

  /** Identity 7 holds the stored credential and the role's bootstrap token, and may delete any token. */
  function Mount(k: Setting): State {
    State(k.env, Server(1, map[], {}, map[], map[k.config.token := 7, k.role.bootstrapToken := 7],
                        map[(k.config.username, k.config.password) := 7], {7}),
          None, 0, 0, None, None, None, map[], 0, map[], 0, map[], {}, map[])
  }

  function Ready(k: Setting): State { Mount(k).(config := Some(k.config), version := 1, settled := 1) }

  lemma ConfigBuilds(k: Setting)
    requires Writable(k)
    ensures NewClient(k.env, k.config).Ok? && k.config.tokenId == 0
    ensures AdminAuth(k.env, k.config) == if k.config.token != "" then Bearer(k.config.token) else Basic(k.config.username, k.config.password)
  {
    AcceptedIsWellFormed(k.env, None, true, k.fields);
  }

  lemma SecretIsNew(k: Setting)
    ensures Secret(k) != "" && Secret(k) != k.config.token && Secret(k) != k.role.bootstrapToken
  {
    assert |Secret(k)| == |k.config.token| + |k.role.bootstrapToken| + 1;
  }

  /** AAP with the setting's operators and at most its one secret. */
  ghost predicate Serves(a: Server, k: Setting) {
    && a.operators == Mount(k).aap.operators && a.accounts == Mount(k).aap.accounts && a.privileged == {7}
    && a.secrets.Keys <= {Secret(k)}
  }

  lemma StoredWorks(a: Server, k: Setting, id: int)
    requires Writable(k) && Serves(a, k)
    ensures NewClient(k.env, k.config).Ok? && IdentityOf(a, AdminAuth(k.env, k.config)) == Some(7)
    ensures MayDelete(a, AdminAuth(k.env, k.config), id)
  {
    hide NewClient; hide Accept; hide Secret;
    ConfigBuilds(k);
    SecretIsNew(k);
  }

  // ----- Steps of operation 0, alone

  /** Only operation 0 is in flight, in the call it entered at this time. */
  ghost predicate Solo(x: Timed, entered: int) {
    TimedReachable(x) && x.s.procs.Keys == {0} && x.entered == map[0 := entered] && entered <= x.now
  }

  /** Operation 0 takes a step in time, and is alone afterwards. */
  lemma SoloStep(x: Timed, entered: int, e: Event, time: int) returns (y: Timed)
    requires Solo(x, entered) && !e.Begin? && x.now <= time && (Limit(x.s.procs[0]).Some? ==> time <= entered + Limit(x.s.procs[0]).value)
    requires 0 in Next(x.s, Act(0, e)).procs && Next(x.s, Act(0, e)).procs.Keys == {0}
        && Next(x.s, Act(0, e)).procs[0] != x.s.procs[0]
    ensures Solo(y, time) && y.s == Next(x.s, Act(0, e)) && y.now == time
    ensures y.created.Keys == x.created.Keys + y.s.wal.Keys
    ensures forall w :: w in y.created ==> y.created[w] == if w in x.created then x.created[w] else entered
  {
    hide Next; hide TimedReachable; hide Limit;
    TickReaches(x, Act(0, e), time);
    y := Tick(x, Act(0, e), time);
  }

  /** Something that leaves nobody in flight, or begins operation 0, at time 0. */
  lemma EdgeStep(x: Timed, e: Event) returns (y: Timed)
    requires TimedReachable(x) && x.now == 0 && x.s.procs.Keys <= {0} && x.entered.Keys == x.s.procs.Keys
    requires 0 in x.s.procs ==> x.entered[0] == 0 && Limit(x.s.procs[0]).None?
    requires (e.Begin? ==> !e.op.Revoking?) && Next(x.s, Act(0, e)).procs.Keys <= {0} && Next(x.s, Act(0, e)).wal == map[]
    ensures TimedReachable(y) && y.s == Next(x.s, Act(0, e)) && y.now == 0 && y.created == x.created
    ensures y.entered.Keys == y.s.procs.Keys && (0 in y.s.procs ==> y.entered[0] == 0)
  {
    hide Next; hide TimedReachable; hide Limit;
    TickReaches(x, Act(0, e), 0);
    y := Tick(x, Act(0, e), 0);
    assert y.created == x.created;
  }

  // ----- The configuration is written

  lemma Mounted(k: Setting)
    ensures TimedReachable(Timed(Mount(k), 0, map[], map[]))
  {
    var x := Timed(Mount(k), 0, map[], map[]);
    assert FreshMount(x) && PossibleTimes(x, []) && x == TimedRun(x, []);
  }

  function Writing0(k: Setting, w: WritePc): State { Mount(k).(configLock := Some(0), procs := map[0 := Write(w)]) }

  lemma WriteProbes(k: Setting)
    requires Writable(k)
    ensures Next(Mount(k), Act(0, Begin(Writing(true, k.fields)))) == Writing0(k, Merge(true, k.fields))
    ensures Next(Writing0(k, Merge(true, k.fields)), Act(0, Succeeds)) == Writing0(k, Probe(k.config))
    ensures Next(Writing0(k, Probe(k.config)), Act(0, Succeeds)) == Writing0(k, PutConfig(k.config))
  {
    hide Accept; hide NewClient; hide IdentityOf; hide CredsStep; hide RevokeStep; hide RotateStep; hide Secret;
    StoredWorks(Mount(k).aap, k, 0);
  }

  lemma WriteStores(k: Setting)
    ensures var s := Writing0(k, ResetClient).(config := Some(k.config), version := 1);
            Next(Writing0(k, PutConfig(k.config)), Act(0, Succeeds)) == s && Next(s, Act(0, Succeeds)) == Ready(k)
  {
    hide Accept; hide NewClient; hide CredsStep; hide RevokeStep; hide RotateStep;
    assert Ready(k).procs == map[];
  }

  lemma Configured(k: Setting) returns (x: Timed)
    requires Writable(k)
    ensures TimedReachable(x) && x == Timed(Ready(k), 0, map[], map[])
  {
    hide TimedReachable; hide Next; hide Accept;
    Mounted(k);
    WriteProbes(k);
    WriteStores(k);
    x := Timed(Mount(k), 0, map[], map[]);
    x := EdgeStep(x, Begin(Writing(true, k.fields)));
    x := EdgeStep(x, Succeeds);
    x := EdgeStep(x, Succeeds);
    x := EdgeStep(x, Succeeds);
    x := EdgeStep(x, Succeeds);
    assert x.entered == map[];
  }

  // ----- The request resolves its names

  function Blank(k: Setting): Request { Request("ci", k.role, k.config, 0, 0) }
  function Bound0(k: Setting): Request { Blank(k).(application := if k.role.application != "" then 5 else 0) }
  function Asked(k: Setting): Request { Bound0(k).(user := if k.role.username != "" then 7 else 0) }

  function Minting0(k: Setting, c: CredsPc): State { Ready(k).(procs := map[0 := Creds(c)]) }

  lemma OnlyMatch(id: int, name: string)
    requires id > 0
    ensures ResolveId([Named(id, name)], name) == Ok(id)
  {
    ResolveIdMeaning([Named(id, name)], name, id);
    assert UniqueMatch([Named(id, name)], name, 0);
  }

  lemma Asks(k: Setting)
    requires Writable(k)
    ensures Next(Ready(k), Act(0, Begin(Minting("ci", k.role)))) == Minting0(k, ReadConfig("ci", k.role))
    ensures Next(Minting0(k, ReadConfig("ci", k.role)), Act(0, Succeeds)) == Minting0(k, AfterConfig(Blank(k)))
  {
    hide Accept; hide NewClient; hide RevokeStep; hide RotateStep; hide WriteStep;
    ConfigBuilds(k);
  }

  lemma AppAnswered(k: Setting)
    requires k.role.application != ""
    ensures Next(Minting0(k, AfterConfig(Blank(k))), Act(0, Event.Lookup([Named(5, k.role.application)]))) ==
            Minting0(k, AfterApp(Bound0(k)))
  {
    hide RevokeStep; hide RotateStep; hide WriteStep; hide ResolveId;
    OnlyMatch(5, k.role.application);
  }

  lemma UserAnswered(k: Setting)
    requires k.role.username != ""
    ensures Next(Minting0(k, AfterApp(Bound0(k))), Act(0, Event.Lookup([Named(7, k.role.username)]))) == Minting0(k,
        Mint(Asked(k)))
  {
    hide RevokeStep; hide RotateStep; hide WriteStep; hide ResolveId;
    OnlyMatch(7, k.role.username);
  }

  /** The request resolves its names at once. */
  lemma Resolves(k: Setting) returns (x: Timed)
    requires Writable(k)
    ensures Solo(x, 0) && x.now == 0 && x.s == Minting0(k, Mint(Asked(k))) && x.created == map[]
  {
    hide TimedReachable; hide Next; hide Accept;
    Asks(k);
    x := Configured(k);
    x := EdgeStep(x, Begin(Minting("ci", k.role)));
    x := EdgeStep(x, Succeeds);
    if k.role.application != "" {
      AppAnswered(k);
      x := EdgeStep(x, Event.Lookup([Named(5, k.role.application)]));
    }
    if k.role.username != "" {
      UserAnswered(k);
      x := EdgeStep(x, Event.Lookup([Named(7, k.role.username)]));
    }
    assert x.entered == map[0 := 0];
  }

  // ----- The token and its WAL entry

  /** What matters of a state from here on: one request and its token. */
  ghost predicate Underway0(s: State, k: Setting, c: CredsPc) {
    && s.procs == map[0 := Creds(c)] && s.env == k.env && s.config == Some(k.config) && Serves(s.aap, k)
    && s.aap.live == {1} && 1 in s.aap.tokens && s.aap.tokens[1].owner == 7
        && s.aap.tokens[1].application == Asked(k).application
  }

  lemma MintsOne(k: Setting)
    requires Writable(k)
    ensures var s := Next(Minting0(k, Mint(Asked(k))), Act(0, PostReplied(Created(Secret(k), Asked(k).application),
        REQUEST_ID)));
            Underway0(s, k, PutWal(Asked(k), 1)) && s.wal == map[] && s.nextWal == 0
  {
    hide Accept; hide NewClient; hide RevokeStep; hide RotateStep; hide WriteStep; hide Start; hide MintDescription;
    hide Secret;
    StoredWorks(Mount(k).aap, k, 0);
    SecretIsNew(k);
  }

  function Entry(k: Setting): map<nat, Grant> { map[0 := Grant(1, "ci", k.config)] }

  lemma RecordsOne(s: State, k: Setting)
    requires Underway0(s, k, PutWal(Asked(k), 1)) && s.wal == map[] && s.nextWal == 0
    ensures var t := Next(s, Act(0, Succeeds)); Underway0(t, k, AfterWal(Asked(k), 1, 0)) && t.wal == Entry(k)
  {
    hide RevokeStep; hide RotateStep; hide WriteStep; hide Start; hide AfterWal; hide Serves;
  }

  /** The guard that the request waits for passes. */
  lemma GuardPasses(s: State, k: Setting, c: CredsPc)
    requires Writable(k) && Underway0(s, k, c) && (c == GuardApp(Asked(k), 1, 0) || c == GuardUser(Asked(k), 1, 0))
    requires c.GuardUser? ==> k.role.username != ""
    ensures var d := if c.GuardApp? then AfterGuardApp(Asked(k), 1, 0) else CheckContext(Asked(k), 1, 0);
            Underway0(Next(s, Act(0, Succeeds)), k, d) && Next(s, Act(0, Succeeds)).wal == s.wal
  {
    hide Accept; hide NewClient; hide Serves; hide MayDelete; hide RevokeStep; hide RotateStep; hide WriteStep;
    hide Start; hide AfterGuardApp; hide IdentityOf;
    StoredWorks(s.aap, k, 1);
  }

  lemma CallerWaits(s: State, k: Setting)
    requires Underway0(s, k, CheckContext(Asked(k), 1, 0))
    ensures Underway0(Next(s, Act(0, Succeeds)), k, Commit(Asked(k), 1, 0)) && Next(s, Act(0, Succeeds)).wal == s.wal
  {
    hide Serves; hide RevokeStep; hide RotateStep; hide WriteStep; hide Start;
  }

  // ----- Every call takes as long as it may

  /** The request alone, with its entry stamped at time 0, just entering this call. */
  ghost predicate Entering(x: Timed, k: Setting, c: CredsPc, time: int) {
    Solo(x, time) && x.now == time && Underway0(x.s, k, c) && x.s.wal == Entry(k) && x.created == map[0 := 0]
  }

  lemma WaitsForStorage(k: Setting) returns (x: Timed)
    requires Writable(k)
    ensures Entering(x, k, AfterWal(Asked(k), 1, 0), STORAGE_LIMIT)
  {
    hide TimedReachable; hide Next; hide Accept; hide Serves;
    x := Resolves(k);
    MintsOne(k);
    x := SoloStep(x, 0, PostReplied(Created(Secret(k), Asked(k).application), REQUEST_ID), 0);
    assert x.created == map[];
    RecordsOne(x.s, k);
    x := SoloStep(x, 0, Succeeds, STORAGE_LIMIT);
    assert x.created == map[0 := 0];
  }

  lemma NextCall(x: Timed, k: Setting, c: CredsPc, entered: int, d: CredsPc, time: int) returns (y: Timed)
    requires Entering(x, k, c, entered) && entered <= time && d != c
    requires Limit(Creds(c)).Some? ==> time <= entered + Limit(Creds(c)).value
    requires Underway0(Next(x.s, Act(0, Succeeds)), k, d) && Next(x.s, Act(0, Succeeds)).wal == x.s.wal
    ensures Entering(y, k, d, time)
  {
    hide TimedReachable; hide Next; hide Limit; hide Serves;
    y := SoloStep(x, entered, Succeeds, time);
    assert y.created == map[0 := 0];
  }

  lemma WaitsForGuards(k: Setting) returns (x: Timed)
    requires Writable(k)
    ensures Entering(x, k, Commit(Asked(k), 1, 0), STORAGE_LIMIT + RoleGuardTime(k.role, k.config))
  {
    hide TimedReachable; hide Next; hide Entering; hide Underway0; hide Accept; hide CallLimit;
    var q, time := Asked(k), STORAGE_LIMIT;
    x := WaitsForStorage(k);
    if k.role.application != "" {
      x := PassesGuard(x, k, GuardApp(q, 1, 0), time);
      time := time + CallLimit(k.config);
    }
    if k.role.username != "" {
      x := PassesGuard(x, k, GuardUser(q, 1, 0), time);
      time := time + CallLimit(k.config);
    }
    assert Underway0(x.s, k, CheckContext(q, 1, 0)) by { EnteringIsUnderway(x, k, CheckContext(q, 1, 0), time); }
    CallerWaits(x.s, k);
    x := NextCall(x, k, CheckContext(q, 1, 0), time, Commit(q, 1, 0), time);
  }

  lemma EnteringIsUnderway(x: Timed, k: Setting, c: CredsPc, time: int)
    requires Entering(x, k, c, time)
    ensures Underway0(x.s, k, c)
  {
    hide Underway0; hide Solo;
  }

  lemma PassesGuard(x: Timed, k: Setting, c: CredsPc, time: int) returns (y: Timed)
    requires Writable(k) && Entering(x, k, c, time) && (c == GuardApp(Asked(k), 1, 0) || c == GuardUser(Asked(k), 1, 0))
    requires c.GuardUser? ==> k.role.username != ""
    ensures Entering(y, k, if c.GuardApp? then AfterGuardApp(Asked(k), 1, 0) else CheckContext(Asked(k), 1, 0), time + CallLimit(k.config))
  {
    hide TimedReachable; hide Next; hide Entering; hide Underway0; hide Accept; hide CallLimit;
    EnteringIsUnderway(x, k, c, time);
    GuardPasses(x.s, k, c);
    assert CallLimit(k.config) > 0;
    y := NextCall(x, k, c, time, if c.GuardApp? then AfterGuardApp(Asked(k), 1, 0) else CheckContext(Asked(k), 1, 0),
                  time + CallLimit(k.config));
  }

  // ----- The rollback comes first

  lemma RollbackBegins(s: State, k: Setting)
    requires Inv(s) && Underway0(s, k, Commit(Asked(k), 1, 0)) && s.wal == Entry(k)
    ensures NewClient(k.env, k.config).Ok?
    ensures Next(s, Act(1, Begin(Revoking(FromWal(0))))) ==
            s.(procs := map[0 := s.procs[0], 1 := Revoke(FromWal(0), BySnapshot(1, Some(NewClient(k.env,
                k.config).value)))])
  {
    hide NewClient; hide CredsStep; hide RevokeStep; hide RotateStep; hide WriteStep; hide TargetOf; hide Inv;
    hide Serves;
    TargetIsGrant(s, FromWal(0));
  }

  lemma RollbackDeletes(s: State, k: Setting)
    requires Writable(k) && Serves(s.aap, k) && s.aap.live == {1} && s.procs.Keys == {0, 1}
        && NewClient(k.env, k.config).Ok?
    requires s.procs[1] == Revoke(FromWal(0), BySnapshot(1, Some(NewClient(k.env, k.config).value)))
    ensures var t := Next(s, Act(1, DeleteReplied(Deleted)));
            t.procs.Keys == {0, 1} && t.procs[0] == s.procs[0] && t.procs[1].Revoke? && t.env == s.env
                && t.aap.live == {}
  {
    hide NewClient; hide Accept; hide Serves; hide MayDelete; hide CredsStep; hide RotateStep; hide WriteStep;
    hide Start;
    StoredWorks(s.aap, k, 1);
    assert s.aap.live - {1} == {};
  }

  /** Five minutes after its time stamp, or as soon as the guards are through, the entry is rolled back. */
  function RollbackTime(k: Setting): int {
    if STORAGE_LIMIT + RoleGuardTime(k.role, k.config) >= MIN_AGE then STORAGE_LIMIT + RoleGuardTime(k.role, k.config) else MIN_AGE
  }

  lemma RollbackBegun(k: Setting) returns (x: Timed)
    requires Writable(k) && RoleGuardTime(k.role, k.config) + 2 * STORAGE_LIMIT >= MIN_AGE
    ensures TimedReachable(x) && x.now == RollbackTime(k) && NewClient(k.env, k.config).Ok?
    ensures x.s.env == k.env && Serves(x.s.aap, k) && x.s.aap.live == {1} && x.s.procs.Keys == {0, 1}
    ensures x.s.procs[0] == Creds(Commit(Asked(k), 1, 0))
    ensures x.s.procs[1] == Revoke(FromWal(0), BySnapshot(1, Some(NewClient(k.env, k.config).value)))
    ensures 0 in x.entered && RollbackTime(k) <= x.entered[0] + STORAGE_LIMIT
  {
    hide TimedReachable; hide Next; hide Inv; hide NewClient; hide Accept; hide Serves; hide CallLimit;
    hide RoleGuardTime;
    x := WaitsForGuards(k);
    TimedReachableInv(x);
    RollbackBegins(x.s, k);
    var begin := Act(1, Begin(Revoking(FromWal(0))));
    TickReaches(x, begin, RollbackTime(k));
    x := Tick(x, begin, RollbackTime(k));
  }

  lemma RolledBackFirst(k: Setting) returns (x: Timed)
    requires Writable(k) && RoleGuardTime(k.role, k.config) + 2 * STORAGE_LIMIT >= MIN_AGE
    ensures TimedReachable(x) && x.now == RollbackTime(k) && x.s.env == k.env && x.s.aap.live == {}
    ensures x.s.procs.Keys == {0, 1} && x.s.procs[0] == Creds(Commit(Asked(k), 1, 0)) && x.s.procs[1].Revoke?
    ensures 0 in x.entered && RollbackTime(k) <= x.entered[0] + STORAGE_LIMIT
  {
    hide TimedReachable; hide Next; hide NewClient; hide Accept; hide Serves; hide RollbackTime; hide RoleGuardTime;
    x := RollbackBegun(k);
    RollbackDeletes(x.s, k);
    var del := Act(1, DeleteReplied(Deleted));
    TickReaches(x, del, RollbackTime(k));
    x := Tick(x, del, RollbackTime(k));
  }

  lemma CommitsAnyway(s: State, q: Request)
    requires 0 in s.procs && s.procs[0] == Creds(Commit(q, 1, 0))
    ensures var t := Next(s, Act(0, Succeeds));
            t.aap == s.aap && t.env == s.env && HandsOut(t, 0, q.config, q.role) && t.procs[0].c.lease.grant.id == 1
  {
    hide RevokeStep; hide RotateStep; hide WriteStep; hide Start;
  }

  /** And the request then commits, in time, and hands out a lease for a dead token. */
  lemma RollbackOvertakes(k: Setting) returns (x: Timed)
    requires Writable(k) && RoleGuardTime(k.role, k.config) + 2 * STORAGE_LIMIT >= MIN_AGE
    ensures TimedReachable(x) && x.s.env == k.env && HandsOut(x.s, 0, k.config, k.role)
    ensures !RegistersLive(x.s, 0)
  {
    hide TimedReachable; hide Next; hide Accept; hide RollbackTime; hide RoleGuardTime;
    x := RolledBackFirst(k);
    CommitsAnyway(x.s, Asked(k));
    var ok := Act(0, Succeeds);
    TickReaches(x, ok, RollbackTime(k));
    x := Tick(x, ok, RollbackTime(k));
    Registers(x.s, 0, k.config, k.role);
  }

  /** The five-minute minimum age protects a role's leases if and only if the AAP calls of its guards and two
      storage calls take less than that: for every role, and every configuration an operator can write. */
  lemma LeasesAreLiveIff(env: Env, fields: Fields, config: Config, role: Role)
    requires Accept(env, None, true, fields) == Ok(config)
    ensures LeasesAreLive(env, config, role) <==> RoleGuardTime(role, config) + 2 * STORAGE_LIMIT < MIN_AGE
  {
    hide Accept; hide RoleGuardTime; hide TimedReachable; hide RegistersLive; hide HandsOut;
    if RoleGuardTime(role, config) + 2 * STORAGE_LIMIT < MIN_AGE {
      InTimeLeasesAreLive(env, config, role);
    } else {
      var x := RollbackOvertakes(Setting(env, fields, config, role));
      assert HandsOut(x.s, 0, config, role);
    }
  }
}
