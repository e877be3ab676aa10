/** Runs in which a rotation overtakes another operation: a revocation whose fallback credential it revokes,
    and a mint whose cleanup credential it revokes. */
module RaceRuns {
  import opened Wrappers
  import opened Decimal
  import opened Client
  import opened ConfigWrite
  import opened Marker
  import opened Aap
  import opened Roles
  import opened Protocol
  import opened Invariant
  import opened StepKinds
  import opened Lifecycle
  import opened Ownership
  import opened Effects
  import opened Revocation
  import opened Rotations
  import opened Windows
  import opened Races

  // ----- One rotation in which nothing fails

  function RotateScript(r: Pid, secret: string): seq<Action> {
    [Act(r, Begin(Rotating))] + [Act(r, Succeeds)] + [Act(r, PostReplied(Created(secret, 0), ""))] + [Act(r, Succeeds)]
    + [Act(r, Succeeds)] + [Act(r, Succeeds)] + [Act(r, DeleteReplied(Deleted))]
  }

  /** Nothing stands in the way of a rotation by r that is given this secret. */
  ghost predicate CanRotate(s: State, r: Pid, secret: string, i: int) {
    && ActsAs(s, i) && i in s.aap.privileged && s.config.value.token != "" && s.config.value.username == ""
    && s.lock == None && s.configLock == None && r !in s.procs
    && s.aap.nextId <= MAX_INT64 && secret != "" && secret !in s.aap.secrets && secret !in s.aap.operators
  }

  function Exchanged(s: State, secret: string): Config
    requires s.config.Some?
  {
    s.config.value.(token := secret, tokenId := s.aap.nextId)
  }

  function Under(s: State, r: Pid, pc: RotatePc): State { s.(configLock := Some(r), procs := s.procs[r := Rotate(pc)]) }

  function WithRoot(s: State, r: Pid, secret: string, i: int): State {
    s.(aap := s.aap.(nextId := s.aap.nextId + 1, live := s.aap.live + {s.aap.nextId},
                     secrets := s.aap.secrets[secret := s.aap.nextId],
                     tokens := s.aap.tokens[s.aap.nextId := Token(secret, i, 0, ROOT_DESCRIPTION, None)]),
       ledger := s.ledger[s.aap.nextId := InFlight(r)])
  }

  function Swapped(m: State, r: Pid, config: Config, next: Config): State {
    var ledger := m.ledger[next.tokenId := Root];
    m.(config := Some(next), version := m.version + 1, ledger := if config.tokenId > 0 then ledger[config.tokenId := InFlight(r)] else ledger)
  }

  lemma RotationLoads(s: State, r: Pid, secret: string, i: int)
    requires CanRotate(s, r, secret, i)
    ensures Next(s, Act(r, Begin(Rotating))) == Under(s, r, LoadRoot)
    ensures Next(Under(s, r, LoadRoot), Act(r, Succeeds)) == Under(s, r, MintRoot(s.config.value))
  {
    hide NewClient; hide IdentityOf; hide CredsStep; hide RevokeStep; hide WriteStep;
  }

  lemma RotationMints(s: State, r: Pid, secret: string, i: int)
    requires CanRotate(s, r, secret, i)
    ensures Next(Under(s, r, MintRoot(s.config.value)), Act(r, PostReplied(Created(secret, 0), ""))) ==
            Under(WithRoot(s, r, secret, i), r, VerifyRoot(s.config.value, Exchanged(s, secret)))
  {
    hide NewClient; hide IdentityOf; hide CredsStep; hide RevokeStep; hide WriteStep; hide Start;
  }

  lemma ExchangedBuilds(s: State, r: Pid, secret: string, i: int)
    requires CanRotate(s, r, secret, i)
    ensures NewClient(s.env, Exchanged(s, secret)).Ok? && AdminAuth(s.env, Exchanged(s, secret)) == Bearer(secret)
  {
    hide IdentityOf;
    BearerSwapBuilds(s.env, s.config.value, secret, s.aap.nextId);
  }

  lemma RotationVerifies(s: State, r: Pid, secret: string, i: int)
    requires CanRotate(s, r, secret, i)
    ensures var m := WithRoot(s, r, secret, i);
            Next(Under(m, r, VerifyRoot(s.config.value, Exchanged(s, secret))), Act(r, Succeeds)) ==
            Under(m, r, PutRoot(s.config.value, Exchanged(s, secret)))
  {
    hide NewClient; hide CredsStep; hide RevokeStep; hide WriteStep; hide Start;
    ExchangedBuilds(s, r, secret, i);
  }

  lemma RotationStores(m: State, r: Pid, config: Config, next: Config)
    ensures Next(Under(m, r, PutRoot(config, next)), Act(r, Succeeds)) ==
            Under(Swapped(m, r, config, next), r, ResetRoot(config.tokenId, next))
  {
    hide CredsStep; hide RevokeStep; hide WriteStep; hide Start;
  }

  /** After the store: reset, and the previous root token deleted if its id is known. */
  ghost predicate Settled(s: State, t: State, r: Pid, oldId: int) {
    && t == s.(client := None, settled := s.version, aap := t.aap, ledger := t.ledger)
    && t.aap == s.aap.(live := if oldId > 0 then s.aap.live - {oldId} else s.aap.live)
  }

  lemma RotationFinishes(s: State, r: Pid, oldId: int, next: Config)
    requires r !in s.procs && s.lock == None && s.configLock == None && NewClient(s.env, next).Ok?
    requires oldId > 0 ==> MayDelete(s.aap, AdminAuth(s.env, next), oldId)
    ensures Settled(s, Next(Next(Under(s, r, ResetRoot(oldId, next)), Act(r, Succeeds)), Act(r,
        DeleteReplied(Deleted))), r, oldId)
  {
    hide NewClient; hide MayDelete; hide CredsStep; hide RevokeStep; hide WriteStep; hide Start;
    var u := Next(Under(s, r, ResetRoot(oldId, next)), Act(r, Succeeds));
    if oldId > 0 {
      assert u == Under(s.(client := None, settled := s.version), r, RevokeOld(oldId, next));
      assert Next(u, Act(r, DeleteReplied(Deleted))).procs == s.procs;
    } else {
      assert u.procs == s.procs;
      assert u == s.(client := None, settled := s.version);
    }
  }

  /** The stored configuration has a new live root token of the same identity and the previous one is dead. */
  ghost predicate Rotated(s: State, t: State, secret: string, i: int) {
    && s.config.Some? && t.config == Some(Exchanged(s, secret))
    && t == s.(config := t.config, version := s.version + 1, settled := s.version + 1, client := None,
               aap := t.aap, ledger := t.ledger)
    && t.aap == s.aap.(nextId := s.aap.nextId + 1, secrets := s.aap.secrets[secret := s.aap.nextId],
                       tokens := s.aap.tokens[s.aap.nextId := Token(secret, i, 0, ROOT_DESCRIPTION, None)],
                       live := t.aap.live)
    && t.aap.live == s.aap.live + {s.aap.nextId} - (if s.config.value.tokenId > 0 then {s.config.value.tokenId} else {})
  }

  lemma RotateRuns(s: State, r: Pid, secret: string)
    ensures var ok := Act(r, Succeeds);
            var u := Next(Next(Next(s, Act(r, Begin(Rotating))), ok), Act(r, PostReplied(Created(secret, 0), "")));
            Run(s, RotateScript(r, secret)) == Next(Next(Next(Next(u, ok), ok), ok), Act(r, DeleteReplied(Deleted)))
  {
    hide Next; hide Run;
    var ok, post, del := Act(r, Succeeds), Act(r, PostReplied(Created(secret, 0), "")), Act(r, DeleteReplied(Deleted));
    var a1 := [Act(r, Begin(Rotating))];
    RunNothing(s);
    RunOn(s, [], Act(r, Begin(Rotating)));
    assert [] + a1 == a1;
    RunOn(s, a1, ok);
    RunOn(s, a1 + [ok], post);
    RunOn(s, a1 + [ok] + [post], ok);
    RunOn(s, a1 + [ok] + [post] + [ok], ok);
    RunOn(s, a1 + [ok] + [post] + [ok] + [ok], ok);
    RunOn(s, a1 + [ok] + [post] + [ok] + [ok] + [ok], del);
  }

  lemma RotationSucceeds(s: State, r: Pid, secret: string, i: int)
    requires Inv(s) && CanRotate(s, r, secret, i)
    ensures Rotated(s, Run(s, RotateScript(r, secret)), secret, i)
  {
    hide Inv; hide Next; hide Run; hide CanRotate; hide Settled; hide Under; hide NewClient; hide MayDelete;
    RotateRuns(s, r, secret);
    var c, next := RotationConfigs(s, r, secret, i);
    RotationLoads(s, r, secret, i);
    RotationMints(s, r, secret, i);
    RotationVerifies(s, r, secret, i);
    var m := WithRoot(s, r, secret, i);
    RotationStores(m, r, c, next);
    var w := Swapped(m, r, c, next);
    SwappedMayDelete(s, r, secret, i);
    RotationFinishes(w, r, c.tokenId, next);
    assert Rotated(s, Run(s, RotateScript(r, secret)), secret, i) by {
      SettledRotated(s, r, secret, i, Run(s, RotateScript(r, secret)));
    }
  }

  lemma RotationConfigs(s: State, r: Pid, secret: string, i: int) returns (c: Config, next: Config)
    requires CanRotate(s, r, secret, i)
    ensures s.config == Some(c) && next == Exchanged(s, secret)
  {
    c, next := s.config.value, Exchanged(s, secret);
  }

  lemma SwappedMayDelete(s: State, r: Pid, secret: string, i: int)
    requires Inv(s) && CanRotate(s, r, secret, i)
    ensures var w := Swapped(WithRoot(s, r, secret, i), r, s.config.value, Exchanged(s, secret));
            && r !in w.procs && w.lock == None && w.configLock == None && NewClient(w.env, Exchanged(s, secret)).Ok?
            && MayDelete(w.aap, AdminAuth(w.env, Exchanged(s, secret)), s.config.value.tokenId)
  {
    hide Inv; hide NewClient;
    ExchangedBuilds(s, r, secret, i);
  }

  lemma SettledRotated(s: State, r: Pid, secret: string, i: int, t: State)
    requires CanRotate(s, r, secret, i)
    requires Settled(Swapped(WithRoot(s, r, secret, i), r, s.config.value, Exchanged(s, secret)), t, r,
        s.config.value.tokenId)
    ensures Rotated(s, t, secret, i)
  {
    hide NewClient; hide IdentityOf;
  }

  // ----- A rotation between getClient and the fallback DELETE

  /** Wherever a revocation stands before its fallback with the stored configuration's client, one rotation
      makes its answered DELETE fail, although the configuration stored by then may delete the token. */
  lemma RotationOvertakes(s: State, p: Pid, r: Pid, secret: string, i: int)
    requires Inv(s) && CanRotate(s, r, secret, i) && s.config.value.tokenId > 0
    requires p in s.procs && s.procs[p].Revoke? && s.procs[p].r.ByCurrent?
    requires NewClient(s.env, s.config.value) == Ok(s.procs[p].r.current.client)
    ensures var t := Run(s, RotateScript(r, secret));
            var u := Next(t, Act(p, DeleteReplied(Deleted)));
            var id := s.procs[p].r.id;
            && t.procs == s.procs && p !in u.procs && u.leases == s.leases && u.wal == s.wal
            && (id in s.aap.live ==> id in u.aap.live)
            && t.config == Some(Exchanged(s, secret)) && NewClient(t.env, t.config.value).Ok?
            && MayDelete(t.aap, AdminAuth(t.env, t.config.value), id)
  {
    hide Inv; hide Next; hide Run; hide NewClient; hide MayDelete;
    RotationSucceeds(s, r, secret, i);
    var t := Run(s, RotateScript(r, secret));
    NotTargeted(s, p);
    OldCredentialIsDead(s, t, secret, i, s.procs[p].r.id);
    NewCredentialDeletes(s, t, r, secret, i, s.procs[p].r.id);
    RunKeeps(s, RotateScript(r, secret));
    FallbackSucceedsIff(t, p, t.procs[p].src, t.procs[p].r.id, t.procs[p].r.since, t.procs[p].r.current);
    EndKeepsRecords(t, p, DeleteReplied(Deleted));
  }

  lemma OldCredentialIsDead(s: State, t: State, secret: string, i: int, id: int)
    requires Inv(s) && ActsAs(s, i) && s.config.value.tokenId > 0 && Rotated(s, t, secret, i)
        && secret !in s.aap.secrets
    ensures !Works(t.aap, AdminAuth(s.env, s.config.value)) && !MayDelete(t.aap, AdminAuth(s.env, s.config.value), id)
  {
    hide Inv; hide NewClient;
    RootWorks(s);
    SecretsKnown(s, s.config.value.tokenId);
    TokensArePositive(s);
    NextIdIsNew(s);
  }

  lemma NewCredentialDeletes(s: State, t: State, r: Pid, secret: string, i: int, id: int)
    requires Inv(s) && CanRotate(s, r, secret, i) && Rotated(s, t, secret, i)
    ensures NewClient(t.env, t.config.value).Ok? && MayDelete(t.aap, AdminAuth(t.env, t.config.value), id)
  {
    hide Inv; hide NewClient;
    ExchangedBuilds(s, r, secret, i);
    if s.config.value.tokenId > 0 {
      RootWorks(s);
      NextIdIsNew(s);
    }
  }

  // ----- One creds request in which nothing fails

  function MintScript(p: Pid, name: string, secret: string, requestId: string): seq<Action> {
    [Act(p, Begin(Minting(name, ROLE)))] + [Act(p, Succeeds)] + [Act(p, PostReplied(Created(secret, 0), requestId))]
  }

  function Asked(s: State, name: string): Request
    requires s.config.Some?
  {
    Request(name, ROLE, s.config.value, 0, 0)
  }

  /** Operation p has minted the next id and is about to record it. */
  ghost predicate Minted(s: State, t: State, p: Pid, name: string, secret: string, i: int) {
    && s.config.Some?
    && t == s.(procs := s.procs[p := Creds(PutWal(Asked(s, name), s.aap.nextId))], aap := t.aap, markers := t.markers,
               ledger := s.ledger[s.aap.nextId := InFlight(p)])
    && s.aap.nextId in t.aap.tokens && t.aap.tokens[s.aap.nextId].owner == i && t.aap.tokens[s.aap.nextId].marker.Some?
    && t.aap == s.aap.(nextId := s.aap.nextId + 1, live := s.aap.live + {s.aap.nextId},
                       secrets := s.aap.secrets[secret := s.aap.nextId],
                       tokens := s.aap.tokens[s.aap.nextId := t.aap.tokens[s.aap.nextId]])
  }

  lemma MintBegins(s: State, p: Pid, name: string)
    requires p !in s.procs && s.config.Some? && NewClient(s.env, s.config.value).Ok?
    ensures var u := s.(procs := s.procs[p := Creds(ReadConfig(name, ROLE))]);
            && Next(s, Act(p, Begin(Minting(name, ROLE)))) == u
            && Next(u, Act(p, Succeeds)) == s.(procs := s.procs[p := Creds(Mint(Asked(s, name)))])
  {
    hide NewClient; hide RevokeStep; hide RotateStep; hide WriteStep;
  }

  lemma MintAnswered(s: State, p: Pid, name: string, secret: string, requestId: string, i: int)
    requires p !in s.procs && ActsAs(s, i) && s.aap.nextId <= MAX_INT64
    requires secret != "" && secret !in s.aap.secrets && secret !in s.aap.operators && IsRequestId(requestId)
        && requestId !in s.markers
    ensures Minted(s, Next(s.(procs := s.procs[p := Creds(Mint(Asked(s, name)))]), Act(p, PostReplied(Created(secret,
        0), requestId))),
                   p, name, secret, i)
  {
    hide NewClient; hide IdentityOf; hide MintDescription; hide RevokeStep; hide RotateStep; hide WriteStep; hide Start;
    assert s.procs[p := Creds(Mint(Asked(s, name)))][p := Creds(PutWal(Asked(s, name), s.aap.nextId))] ==
           s.procs[p := Creds(PutWal(Asked(s, name), s.aap.nextId))];
  }

  lemma MintSucceeds(s: State, p: Pid, name: string, secret: string, requestId: string, i: int)
    requires p !in s.procs && ActsAs(s, i) && s.aap.nextId <= MAX_INT64
    requires secret != "" && secret !in s.aap.secrets && secret !in s.aap.operators && IsRequestId(requestId)
        && requestId !in s.markers
    ensures Minted(s, Run(s, MintScript(p, name, secret, requestId)), p, name, secret, i)
  {
    hide Next; hide Run; hide ActsAs; hide NewClient; hide Minted;
    StoredBuildsClient(s, i);
    var begin := [Act(p, Begin(Minting(name, ROLE)))];
    RunNothing(s);
    RunOn(s, [], begin[0]);
    assert [] + begin == begin;
    RunOn(s, begin, Act(p, Succeeds));
    RunOn(s, begin + [Act(p, Succeeds)], Act(p, PostReplied(Created(secret, 0), requestId)));
    MintBegins(s, p, name);
    MintAnswered(s, p, name, secret, requestId, i);
  }

  /** Recorded, not cancelled, committed and answered: the token gets its lease. */
  ghost predicate Leased(s: State, t: State, p: Pid, q: Request, id: int) {
    && t == s.(procs := s.procs - {p}, nextWal := s.nextWal + 1, ledger := t.ledger,
               leases := s.leases[s.nextLease := Lease(Grant(id, q.name, q.config), q.role.ttl, q.role.maxTtl, q)],
               nextLease := s.nextLease + 1)
  }

  function At(s: State, p: Pid, c: CredsPc): State { s.(procs := s.procs[p := Creds(c)]) }

  lemma MintRecords(s: State, p: Pid, q: Request, id: int)
    requires p in s.procs && s.procs[p] == Creds(PutWal(q, id)) && q.application == 0 && q.role == ROLE
        && s.nextWal !in s.wal
    ensures var ok := Act(p, Succeeds);
            var w := s.nextWal;
            var t := s.(wal := s.wal[w := Grant(id, q.name, q.config)], nextWal := w + 1,
                ledger := s.ledger[id := InWal(w, Some(p))]);
            && Next(s, ok) == At(t, p, CheckContext(q, id, w))
            && Next(At(t, p, CheckContext(q, id, w)), ok) == At(t, p, Commit(q, id, w))
  {
    hide RevokeStep; hide RotateStep; hide WriteStep; hide Start;
  }

  lemma MintCommits(s: State, t: State, p: Pid, q: Request, id: int)
    requires p in s.procs && s.nextWal !in s.wal
    requires t == s.(wal := s.wal[s.nextWal := Grant(id, q.name, q.config)], nextWal := s.nextWal + 1,
                     ledger := s.ledger[id := InWal(s.nextWal, Some(p))])
    ensures var ok := Act(p, Succeeds);
            Leased(s, Next(Next(At(t, p, Commit(q, id, s.nextWal)), ok), ok), p, q, id)
  {
    hide RevokeStep; hide RotateStep; hide WriteStep; hide Start;
    var ok := Act(p, Succeeds);
    var lease := Lease(Grant(id, q.name, q.config), q.role.ttl, q.role.maxTtl, q);
    assert t.wal - {s.nextWal} == s.wal;
    var u := Next(At(t, p, Commit(q, id, s.nextWal)), ok);
    assert u == At(s.(nextWal := s.nextWal + 1, ledger := t.ledger[id := InFlight(p)]), p, Respond(lease));
    assert s.procs[p := Creds(Respond(lease))] - {p} == s.procs - {p};
  }

  // ----- Going on from a reachable state

  predicate AllUndisturbed(actions: seq<Action>) { forall k :: 0 <= k < |actions| ==> Undisturbed(actions[k]) }

  /** A reachable state of an engine that runs as the privileged identity i. */
  ghost predicate Running(s: State, i: int) { Reachable(s) && RunsAs(s, i) && i in s.aap.privileged && Inv(s) }

  lemma GoesOn(s: State, actions: seq<Action>, i: int)
    requires Running(s, i) && AllUndisturbed(actions)
    ensures Running(Run(s, actions), i)
  {
    hide Inv; hide Run; hide RunsAs; hide Undisturbed; hide Initial;
    RunRunsAs(s, actions, i);
    RunKeepsPrivileges(s, actions);
    var s0: State, past: seq<Action> :| Initial(s0) && s == Run(s0, past);
    RunBoth(s0, past, actions);
  }

  lemma StepsOn(s: State, a: Action, i: int)
    requires Running(s, i) && Undisturbed(a)
    ensures Running(Next(s, a), i)
  {
    hide Running; hide Next; hide Run; hide Undisturbed;
    RunNothing(s);
    RunOn(s, [], a);
    assert [] + [a] == [a];
    GoesOn(s, [a], i);
  }

  lemma ScriptsAreUndisturbed(r: Pid, p: Pid, name: string, secret: string, requestId: string)
    ensures AllUndisturbed(RotateScript(r, secret)) && AllUndisturbed(MintScript(p, name, secret, requestId))
  {
  }

  /** What the witnesses below track: the engine runs as 7, nobody holds a lock, and the stored root token. */
  ghost predicate Idling(s: State, root: int, secret: string) {
    && Running(s, 7) && s.lock == None && s.configLock == None && s.settled == s.version
    && s.config.Some? && s.config.value.tokenId == root > 0 && s.config.value.token == secret
        && s.config.value.username == ""
    && s.aap.operators == map["operator" := 7]
  }

  /** Rotates an idling engine once more. */
  lemma RotateIdling(s: State, root: int, secret: string, next: string) returns (t: State)
    requires Idling(s, root, secret) && 0 !in s.procs && s.aap.nextId <= 9
    requires secret != "" && next != "" && next !in s.aap.secrets && next != "operator"
    ensures Idling(t, s.aap.nextId, next) && Rotated(s, t, next, 7) && t == Run(s, RotateScript(0, next))
  {
    hide Running; hide Run; hide Rotated;
    assert CanRotate(s, 0, next, 7) by { IdlingCanRotate(s, root, secret, next); }
    t := Run(s, RotateScript(0, next));
    assert Inv(s) by { RunningInv(s); }
    RotationSucceeds(s, 0, next, 7);
    ScriptsAreUndisturbed(0, 0, "", next, "");
    GoesOn(s, RotateScript(0, next), 7);
    RotatedIdles(s, t, root, secret, next);
  }

  lemma RunningInv(s: State)
    requires Running(s, 7)
    ensures Inv(s) && ActsAs(s, 7) && 7 in s.aap.privileged && s.aap.nextId > 0 && s.aap.nextId !in s.aap.tokens
  {
    hide Inv; hide Reachable; hide NewClient; hide ActsAs;
    RunsMeansActs(s, 7);
    ServerIsOk(s);
  }

  lemma IdlingCanRotate(s: State, root: int, secret: string, next: string)
    requires Idling(s, root, secret) && 0 !in s.procs && s.aap.nextId <= 9
    requires secret != "" && next != "" && next !in s.aap.secrets && next != "operator"
    ensures CanRotate(s, 0, next, 7)
  {
    hide Running; hide Inv; hide ActsAs;
    RunningInv(s);
  }

  lemma RotatedIdles(s: State, t: State, root: int, secret: string, next: string)
    requires Idling(s, root, secret) && Rotated(s, t, next, 7) && Running(t, 7)
    ensures Idling(t, s.aap.nextId, next)
  {
    hide Running; hide Inv;
    RunningInv(s);
  }

  /** An operator configures the engine, and it rotates to a root token of its own. */
  lemma RotatedOnce() returns (s: State)
    ensures Idling(s, 1, "root-1") && s.procs == map[] && s.aap.nextId == 2 && s.aap.live == {1}
    ensures s.aap.secrets == map["root-1" := 1] && s.markers == {} && s.wal == map[] && s.leases == map[]
  {
    hide Reachable; hide Run; hide RunsAs; hide Inv; hide Rotated;
    var s0 := Configured();
    ConfiguredRuns(s0);
    s := Run(s0, RotateScript(0, "root-1"));
    RotationSucceeds(s0, 0, "root-1", 7);
    ScriptsAreUndisturbed(0, 0, "", "root-1", "");
    GoesOn(s0, RotateScript(0, "root-1"), 7);
    FirstRotation(s0, s);
  }

  lemma ConfiguredRuns(s: State)
    requires Reachable(s) && s == FRESH.(config := Some(STORED), version := 1, settled := 1)
    ensures Running(s, 7) && CanRotate(s, 0, "root-1", 7)
  {
    hide Reachable; hide Inv; hide NewClient;
    ReachableInv(s);
    StoredBuilds();
  }

  lemma FirstRotation(s: State, t: State)
    requires s == FRESH.(config := Some(STORED), version := 1, settled := 1) && Rotated(s, t, "root-1", 7)
        && Running(t, 7)
    ensures Idling(t, 1, "root-1") && t.procs == map[] && t.aap.nextId == 2 && t.aap.live == {1}
    ensures t.aap.secrets == map["root-1" := 1] && t.markers == {} && t.wal == map[] && t.leases == map[]
  {
    hide Running;
  }

  /** A request mints under the first root token; then the engine rotates. */
  lemma MintedThenRotated() returns (s: State, t: State)
    ensures Idling(t, 3, "root-2") && s.config.Some? && s.config.value.tokenId == 1
    ensures s.config.value.token == "root-1" && s.config.value.username == ""
    ensures t.aap.secrets == map["root-1" := 1, "token" := 2, "root-2" := 3]
    ensures t.procs == map[1 := Creds(PutWal(Asked(s, "ci"), 2))]
    ensures t.aap.live == {2, 3} && t.aap.nextId == 4 && t.nextWal !in t.wal
  {
    hide Running; hide Run; hide Rotated; hide Minted; hide Inv;
    s := RotatedOnce();
    RunningInv(s);
    var m := Run(s, MintScript(1, "ci", "token", REQUEST_ID));
    MintSucceeds(s, 1, "ci", "token", REQUEST_ID, 7);
    ScriptsAreUndisturbed(0, 1, "ci", "token", REQUEST_ID);
    GoesOn(s, MintScript(1, "ci", "token", REQUEST_ID), 7);
    MintedIdles(s, m);
    t := RotateIdling(m, 1, "root-1", "root-2");
    RotatedAfterMint(s, m, t);
    assert Inv(t) by { RunningInv(t); }
    NextEntryIsFree(t);
  }

  lemma MintedIdles(s: State, m: State)
    requires Idling(s, 1, "root-1") && s.procs == map[] && s.aap.nextId == 2 && s.aap.live == {1}
        && s.aap.secrets == map["root-1" := 1]
    requires Minted(s, m, 1, "ci", "token", 7) && Running(m, 7)
    ensures Idling(m, 1, "root-1") && m.procs == map[1 := Creds(PutWal(Asked(s, "ci"), 2))]
    ensures m.aap.nextId == 3 && m.aap.live == {1, 2} && m.aap.secrets == map["root-1" := 1, "token" := 2]
  {
    hide Running;
  }

  lemma RotatedAfterMint(s: State, m: State, t: State)
    requires s.config.Some? && Idling(m, 1, "root-1") && m.procs == map[1 := Creds(PutWal(Asked(s, "ci"), 2))]
    requires m.aap.nextId == 3 && m.aap.live == {1, 2} && Rotated(m, t, "root-2", 7)
    requires m.aap.secrets == map["root-1" := 1, "token" := 2]
    ensures t.aap.secrets == map["root-1" := 1, "token" := 2, "root-2" := 3]
    ensures t.procs == m.procs && t.aap.live == {2, 3} && t.aap.nextId == 4
  {
    hide Running;
  }

  lemma NextEntryIsFree(s: State)
    requires Inv(s)
    ensures s.nextWal !in s.wal && s.nextLease !in s.leases
  {
    hide ProcOk; hide RootOk; hide LedgerOk; hide LocksOk; hide CacheOk; hide ServerOk;
  }

  /** A reachable state in which the entry could not be written after a rotation has revoked the credential
      that the request read: its answered DELETE loses the live token, which the stored configuration may
      delete. */
  lemma UnloggedLossHappens() returns (s: State, q: Request)
    ensures Reachable(s) && RunsAs(s, 7) && 1 in s.procs && s.procs[1] == Creds(DropUnlogged(q, 2)) && 2 in s.aap.live
    ensures q.config.tokenId > 0 && q.config.tokenId !in s.aap.live
    ensures var t := Next(s, Act(1, DeleteReplied(Deleted)));
            && 2 in t.aap.live && 2 in t.ledger && t.ledger[2] == Orphan(WalAndRevokeFailed) && 1 !in t.procs
            && s.config.Some? && NewClient(s.env, s.config.value).Ok?
                && MayDelete(s.aap, AdminAuth(s.env, s.config.value), 2)
  {
    hide Inv; hide Running; hide MayDelete; hide NewClient; hide Next;
    var first, u := MintedThenRotated();
    q := Asked(first, "ci");
    s := Next(u, Act(1, Fails));
    StepsOn(u, Act(1, Fails), 7);
    WriteFails(u, q);
    RunningActs(s);
    StoredBuildsClient(s, 7);
    ActorMayDelete(s, 7, 2);
    LostWithDeadRoot(s, q);
  }

  lemma LostWithDeadRoot(s: State, q: Request)
    requires Inv(s) && 1 in s.procs && s.procs[1] == Creds(DropUnlogged(q, 2)) && 2 in s.aap.live
    requires q.config.token in s.aap.secrets && s.aap.secrets[q.config.token] !in s.aap.live && q.config.username == ""
    ensures var t := Next(s, Act(1, DeleteReplied(Deleted)));
            2 in t.aap.live && 2 in t.ledger && t.ledger[2] == Orphan(WalAndRevokeFailed) && 1 !in t.procs
  {
    hide Inv; hide Next;
    UnloggedIsLostIff(s, 1, q, 2, Deleted);
    assert AdminAuth(s.env, q.config) == Bearer(q.config.token);
  }

  lemma RunningActs(s: State)
    requires Running(s, 7)
    ensures Reachable(s) && RunsAs(s, 7) && Inv(s) && ActsAs(s, 7) && 7 in s.aap.privileged
  {
    hide Reachable; hide Inv;
  }

  lemma WriteFails(u: State, q: Request)
    requires u.procs == map[1 := Creds(PutWal(q, 2))]
    ensures Next(u, Act(1, Fails)) == u.(procs := map[1 := Creds(DropUnlogged(q, 2))])
  {
    hide RevokeStep; hide RotateStep; hide WriteStep; hide Start;
  }

  /** The request of MintedThenRotated goes on to its lease, which snapshots the dead root token. */
  lemma LeasedAfterRotation() returns (s: State, l: nat)
    ensures Idling(s, 3, "root-2") && s.procs == map[] && l in s.leases && s.leases[l].grant.id == 2
    ensures s.leases[l].grant.config.token == "root-1" && s.leases[l].grant.config.username == ""
    ensures s.aap.live == {2, 3} && s.aap.nextId == 4
    ensures s.aap.secrets == map["root-1" := 1, "token" := 2, "root-2" := 3]
  {
    hide Running; hide Next; hide Leased;
    var first, t := MintedThenRotated();
    var q := Asked(first, "ci");
    var ok := Act(1, Succeeds);
    MintRecords(t, 1, q, 2);
    MintCommits(t, t.(wal := t.wal[t.nextWal := Grant(2, q.name, q.config)], nextWal := t.nextWal + 1,
                      ledger := t.ledger[2 := InWal(t.nextWal, Some(1))]), 1, q, 2);
    StepsOn(t, ok, 7);
    StepsOn(Next(t, ok), ok, 7);
    StepsOn(Next(Next(t, ok), ok), ok, 7);
    s := Next(Next(Next(Next(t, ok), ok), ok), ok);
    StepsOn(Next(Next(Next(t, ok), ok), ok), ok, 7);
    l := t.nextLease;
    LeaseIdles(t, s, q);
  }

  lemma LeaseIdles(t: State, s: State, q: Request)
    requires Idling(t, 3, "root-2") && t.procs == map[1 := Creds(PutWal(q, 2))] && Leased(t, s, 1, q, 2)
        && Running(s, 7)
    ensures Idling(s, 3, "root-2") && s.procs == map[] && s.aap == t.aap
    ensures t.nextLease in s.leases && s.leases[t.nextLease].grant == Grant(2, q.name, q.config)
  {
    hide Running;
  }

  /** A revocation whose snapshot credential is refused goes on to the fallback. */
  lemma SnapshotRefused(s: State, p: Pid, src: Source)
    requires Inv(s) && p !in s.procs && Recorded(s, src) && s.lock == None
    requires NewClient(s.env, GrantOf(s, src).config).Ok? ==>
               !MayDelete(s.aap, NewClient(s.env, GrantOf(s, src).config).value.auth, GrantOf(s, src).id)
    ensures var u := Next(Next(s, Act(p, Begin(Revoking(src)))), Act(p, DeleteReplied(Deleted)));
            u.lock == None && u.client == s.client && Underway(s, u, p, src, CheckCache(GrantOf(s, src).id, s.settled))
  {
    hide Inv; hide TargetOf; hide NewClient; hide MayDelete; hide CredsStep; hide RotateStep; hide WriteStep;
    TargetIsGrant(s, src);
    var s1 := Start(s, p, Revoking(src));
    assert s1.procs[p] == Revoke(src, BySnapshot(GrantOf(s, src).id, Some(NewClient(s.env, GrantOf(s,
        src).config).value)));
  }

  lemma DeadSnapshot(s: State, config: Config, id: int)
    requires config.username == "" && config.token in s.aap.secrets && s.aap.secrets[config.token] !in s.aap.live
    ensures NewClient(s.env, config).Ok? ==> !MayDelete(s.aap, NewClient(s.env, config).value.auth, id)
  {
  }

  /** The revocation of that lease has fetched the present client. */
  lemma BeforeFallback() returns (s: State, src: Source)
    ensures Idling(s, 3, "root-2") && s.procs.Keys == {1} && s.procs[1].Revoke? && s.procs[1].src == src
        && s.procs[1].r.ByCurrent?
    ensures s.procs[1].r.id == 2 && NewClient(s.env, s.config.value) == Ok(s.procs[1].r.current.client)
    ensures Recorded(s, src) && s.aap.live == {2, 3} && s.aap.nextId == 4 && "root-3" !in s.aap.secrets
  {
    hide Running; hide Inv; hide Next; hide NewClient; hide MayDelete; hide CanRevoke;
    var t, l := LeasedAfterRotation();
    src := FromLease(l);
    RunningActs(t);
    DeadSnapshot(t, t.leases[l].grant.config, 2);
    SnapshotRefused(t, 1, src);
    var begin, del, ok := Act(1, Begin(Revoking(src))), Act(1, DeleteReplied(Deleted)), Act(1, Succeeds);
    var u := Next(Next(t, begin), del);
    IdlingCanRevoke(t, 2);
    FetchesClient(t, u, 1, src, 2);
    StepsOn(t, begin, 7);
    StepsOn(Next(t, begin), del, 7);
    StepsOn(u, ok, 7);
    StepsOn(Next(u, ok), ok, 7);
    StepsOn(Next(Next(u, ok), ok), ok, 7);
    StepsOn(Next(Next(Next(u, ok), ok), ok), ok, 7);
    s := Next(Next(Next(Next(u, ok), ok), ok), ok);
    StoredBuildsClient(t, 7);
  }

  lemma IdlingCanRevoke(s: State, id: int)
    requires Running(s, 7) && s.lock == None && s.configLock == None
    ensures CanRevoke(s, id)
  {
    hide Reachable; hide Inv;
    PrivilegedCanRevoke(s, 7, id);
  }

  /** A reachable state in which an attempt whose every call was answered fails: the snapshot credential was
      revoked by one rotation, and the credential that getClient then read by the next. The lease and its live
      token stay, and the present configuration may delete it. */
  lemma RevocationIsOvertaken() returns (s: State, src: Source)
    ensures Reachable(s) && RunsAs(s, 7) && 1 in s.procs && s.procs[1].Revoke? && s.procs[1].src == src
        && s.procs[1].r.ByCurrent?
    ensures var t := Next(s, Act(1, DeleteReplied(Deleted)));
            && 1 !in t.procs && Recorded(t, src) && 2 in t.aap.live && s.procs[1].r.id == 2
            && s.config.Some? && NewClient(s.env, s.config.value).Ok?
                && MayDelete(s.aap, AdminAuth(s.env, s.config.value), 2)
  {
    hide Running; hide Inv; hide Next; hide Run; hide NewClient; hide MayDelete; hide Rotated; hide CanRotate;
    var v, from := BeforeFallback();
    src := from;
    RunningActs(v);
    IdlingCanRotate(v, 3, "root-2", "root-3");
    RotationOvertakes(v, 1, 0, "root-3", 7);
    s := RotateIdling(v, 3, "root-2", "root-3");
    RunningActs(s);
  }
}
