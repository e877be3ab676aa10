/** Revocations and mints racing root rotations: exactly when an answered call fails. */
module Races {
  import opened Wrappers
  import opened Client
  import opened ConfigWrite
  import opened Aap
  import opened Roles
  import opened Protocol
  import opened Invariant
  import opened StepKinds
  import opened Lifecycle
  import opened Ownership
  import opened Effects
  import opened Revocation
  import opened Rotations
  import opened Progress
  import opened Windows

  // ----- A credential of one identity

  /** Whoever the credential works as, it is i: i's own, or a root token that the engine minted as i. */
  predicate ActsAuth(a: Server, auth: Auth, i: int) {
    match auth
    case Basic(u, p) => (u, p) in a.accounts && a.accounts[(u, p)] == i
    case Bearer(t) =>
      if t in a.secrets then
        var id := a.secrets[t];
        id in a.tokens && a.tokens[id].owner == i && a.tokens[id].marker.None?
      else t in a.operators && a.operators[t] == i
  }

  /** The credential is a token that the engine minted and has revoked since. */
  predicate DeadRoot(a: Server, auth: Auth) {
    auth.Bearer? && auth.token in a.secrets && a.secrets[auth.token] !in a.live
  }

  /** A privileged identity's credential may delete any token, unless it is a dead root token. */
  lemma MayDeleteIff(a: Server, auth: Auth, i: int, id: int)
    requires ActsAuth(a, auth, i) && i in a.privileged
    ensures MayDelete(a, auth, id) <==> !DeadRoot(a, auth)
  {
  }

  lemma ActsAuthStays(a: Server, b: Server, auth: Auth, i: int)
    requires ActsAuth(a, auth, i) && Grows(a, b)
    ensures ActsAuth(b, auth, i)
  {
  }

  /** A configuration whose credential is i's; a token id it names is that of its token. */
  ghost predicate ConfigActs(s: State, c: Config, i: int) {
    && NewClient(s.env, c).Ok?
    && ActsAuth(s.aap, AdminAuth(s.env, c), i)
    && (if c.tokenId > 0 then AdminAuth(s.env, c) == Bearer(c.token) && c.token in s.aap.secrets
        && s.aap.secrets[c.token] == c.tokenId
        else AdminAuth(s.env, c).Bearer? ==> AdminAuth(s.env, c).token !in s.aap.secrets)
  }

  lemma StoredActs(s: State, i: int)
    requires Inv(s) && ActsAs(s, i)
    ensures ConfigActs(s, s.config.value, i)
  {
    hide Inv; hide NewClient;
    if s.config.value.tokenId > 0 {
      RootWorks(s);
      SecretsKnown(s, s.config.value.tokenId);
      StoredIsRoot(s);
    }
  }

  lemma StoredIsRoot(s: State)
    requires Inv(s) && s.config.Some? && s.config.value.tokenId > 0
    ensures IsRootToken(s, s.config.value.tokenId)
  {
    hide ProcOk; hide WalOk; hide LeasesOk; hide LedgerOk; hide LocksOk; hide CacheOk; hide NewClient;
  }

  lemma ConfigActsStays(s: State, t: State, c: Config, i: int)
    requires ConfigActs(s, c, i) && t.env == s.env && Grows(s.aap, t.aap)
    ensures ConfigActs(t, c, i)
  {
    hide NewClient;
  }

  /** Such a configuration's credential is dead exactly when the root token it names is. */
  lemma DeadConfigIff(s: State, c: Config, i: int)
    requires ConfigActs(s, c, i)
    ensures DeadRoot(s.aap, AdminAuth(s.env, c)) <==> c.tokenId > 0 && c.tokenId !in s.aap.live
  {
    hide NewClient;
  }

  // ----- Clients in hand

  /** Every client built from the configuration of version v or later acts as i. */
  ghost predicate ClientsAct(s: State, i: int, v: nat) {
    && (s.client.Some? && v <= s.client.value.version ==> ActsAuth(s.aap, s.client.value.client.auth, i))
    && (forall q :: q in s.procs && InHand(s.procs[q]).Some? && v <= InHand(s.procs[q]).value.version ==>
          ActsAuth(s.aap, InHand(s.procs[q]).value.client.auth, i))
  }

  function InHand(pc: Proc): Option<Cached> {
    match pc
    case Revoke(_, StoreClient(_, _, built)) => Some(built)
    case Revoke(_, ByCurrent(_, _, current)) => Some(current)
    case _ => None
  }

  /** Right now, that is so for the present version, whatever is cached or in flight. */
  lemma ClientsActNow(s: State, i: int)
    requires Inv(s) && ActsAs(s, i)
    ensures ClientsAct(s, i, s.version)
  {
    hide Inv; hide NewClient; hide ActsAs;
    StoredActs(s, i);
    assert NewClient(s.env, s.config.value).Ok? by { StoredBuildsClient(s, i); }
    CacheFacts(s);
    forall q | q in s.procs && InHand(s.procs[q]).Some? && s.version <= InHand(s.procs[q]).value.version
      ensures ActsAuth(s.aap, InHand(s.procs[q]).value.client.auth, i)
    {
      HandIsOk(s, q);
    }
  }

  lemma StoredBuildsClient(s: State, i: int)
    requires ActsAs(s, i)
    ensures s.config.Some? && NewClient(s.env, s.config.value).Ok?
  {
  }

  lemma HandIsOk(s: State, q: Pid)
    requires Inv(s) && q in s.procs && InHand(s.procs[q]).Some?
    ensures CachedOk(s, InHand(s.procs[q]).value)
  {
    hide NewClient; hide ServerOk; hide WalOk; hide LeasesOk; hide LedgerOk; hide LocksOk; hide CacheOk; hide RootOk;
    assert ProcOk(s, q, s.procs[q]);
  }

  /** Clients come from the cache, from another operation's hand, or from the stored configuration. */
  ghost predicate ClientsMove(s: State, t: State) {
    && (t.client.Some? ==> Known(s, t.client.value))
    && (forall q :: q in t.procs && InHand(t.procs[q]).Some? ==> Known(s, InHand(t.procs[q]).value))
  }

  ghost predicate Known(s: State, k: Cached) {
    || s.client == Some(k)
    || (exists q :: q in s.procs && InHand(s.procs[q]) == Some(k))
    || (s.config.Some? && NewClient(s.env, s.config.value) == Ok(k.client))
  }

  lemma CredsKeepClient(s: State, p: Pid, c: CredsPc, e: Event)
    ensures CredsStep(s, p, c, e).client == s.client
  {
    hide NewClient; hide Delete; hide DeleteConfirmed; hide Works; hide ResolveId; hide AfterConfig; hide AfterApp;
    hide AfterWal; hide AfterGuardApp; hide SweepListStep; hide SweepDeleteStep; hide AwaitMintStep;
    match c
    case Mint(q) => MintKeepsRecords(s, p, q, e);
    case SweepList(auth, description, _, token) => SweepListKeepsRecords(s, p, auth, description, token, e);
    case SweepDelete(auth, ids, token) => SweepDeleteKeepsRecords(s, p, auth, ids, token, e);
    case _ =>
  }

  lemma RevokeMovesClient(s: State, p: Pid, src: Source, r: RevokePc, e: Event)
    requires p in s.procs && s.procs[p] == Revoke(src, r)
    ensures var t := RevokeStep(s, p, src, r, e);
            && (t.client.Some? ==> Known(s, t.client.value))
            && (p in t.procs && InHand(t.procs[p]).Some? ==> Known(s, InHand(t.procs[p]).value))
  {
    hide NewClient; hide Delete; hide DeleteConfirmed;
    if r.StoreClient? || r.ByCurrent? { assert InHand(s.procs[p]).Some?; }
  }

  lemma RotateMovesClient(s: State, p: Pid, t: RotatePc, e: Event)
    ensures RotateStep(s, p, t, e).client == s.client || RotateStep(s, p, t, e).client == None
  {
    hide NewClient; hide Delete; hide DeleteConfirmed; hide Works; hide Creates; hide Post;
  }

  lemma WriteMovesClient(s: State, p: Pid, w: WritePc, e: Event)
    ensures WriteStep(s, p, w, e).client == s.client || WriteStep(s, p, w, e).client == None
  {
    hide NewClient; hide Works; hide Accept;
  }

  lemma StepMovesClients(s: State, a: Action)
    requires Inv(s)
    ensures ClientsMove(s, Next(s, a))
  {
    hide Inv; hide NewClient; hide CredsStep; hide RevokeStep; hide RotateStep; hide WriteStep; hide TargetOf;
    hide Grows; hide ActorOnly; hide AfterCrash;
    if a.Act? {
      StepMovesOne(s, a.p, a.e);
      if a.p in s.procs {
        match s.procs[a.p]
        case Creds(c) => CredsKeepClient(s, a.p, c, a.e); CredsGrows(s, a.p, c, a.e); StaysCreds(s, CredsStep(s, a.p, c, a.e), a.p);
        case Revoke(src, r) => RevokeMovesClient(s, a.p, src, r, a.e);
        case Rotate(t) => RotateMovesClient(s, a.p, t, a.e); RootOpsStayRootOps(s, a.p, t, ResetClient, a.e);
        case Write(w) => WriteMovesClient(s, a.p, w, a.e); RootOpsStayRootOps(s, a.p, LoadRoot, w, a.e);
      }
    }
  }

  lemma StaysCreds(s: State, t: State, p: Pid)
    requires ActorOnly(s, t, p, true)
    ensures p in t.procs ==> t.procs[p].Creds?
  {
  }

  lemma ClientsActStays(s: State, a: Action, i: int, v: nat)
    requires Inv(s) && RunsAs(s, i) && Undisturbed(a) && ClientsAct(s, i, v)
    ensures ClientsAct(Next(s, a), i, v)
  {
    hide Inv; hide Next; hide NewClient; hide RunsAs; hide ActsAuth; hide Grows;
    StepMovesClients(s, a);
    StepGrows(s, a);
    assert ActsAs(s, i) by { RunsMeansActs(s, i); }
    StoredActs(s, i);
    forall k: Cached | Known(s, k) && v <= k.version
      ensures ActsAuth(Next(s, a).aap, k.client.auth, i)
    {
      KnownActs(s, k, i, v);
      ActsAuthStays(s.aap, Next(s, a).aap, k.client.auth, i);
    }
  }

  lemma RunsMeansActs(s: State, i: int)
    requires RunsAs(s, i)
    ensures ActsAs(s, i)
  {
  }

  lemma KnownActs(s: State, k: Cached, i: int, v: nat)
    requires Known(s, k) && v <= k.version && ClientsAct(s, i, v) && s.config.Some? && ConfigActs(s, s.config.value, i)
    ensures ActsAuth(s.aap, k.client.auth, i)
  {
    hide NewClient; hide ActsAuth;
  }

  // ----- An interleaved revocation

  lemma {:induction false} RunKeepsClients(s: State, actions: seq<Action>, i: int, v: nat)
    requires Inv(s) && RunsAs(s, i) && ClientsAct(s, i, v) && forall k :: 0 <= k < |actions| ==> Undisturbed(actions[k])
    ensures ClientsAct(Run(s, actions), i, v)
  {
    hide Inv; hide Next; hide RunsAs; hide Undisturbed; hide ClientsAct;
    if actions != [] {
      var n := |actions| - 1;
      RunKeepsClients(s, actions[..n], i, v);
      RunRunsAs(s, actions[..n], i);
      ClientsActStays(Run(s, actions[..n]), actions[n], i, v);
    }
  }

  /** AAP or storage answers, and nothing but a credential stands in the way. */
  predicate Answers(e: Event) { e.Succeeds? || e == DeleteReplied(Deleted) }

  /** With every call answered, a revocation ends only with its token dead, or at its fallback DELETE. */
  lemma AnsweredEnds(u: State, p: Pid, e: Event, i: int)
    requires Inv(u) && ActsAs(u, i) && p in u.procs && u.procs[p].Revoke? && Answers(e)
        && p !in Next(u, Act(p, e)).procs
    ensures u.procs[p].r.Revoked? || (u.procs[p].r.ByCurrent?
        && !MayDelete(u.aap, u.procs[p].r.current.client.auth, u.procs[p].r.id))
  {
    hide Inv; hide NewClient; hide MayDelete; hide CredsStep; hide RotateStep; hide WriteStep; hide Start;
  }

  lemma RevokedIsDead(u: State, p: Pid)
    requires Inv(u) && p in u.procs && u.procs[p].Revoke? && u.procs[p].r.Revoked?
    ensures u.procs[p].r.id !in u.aap.live
  {
    hide NewClient; hide ServerOk; hide WalOk; hide LeasesOk; hide LedgerOk; hide LocksOk; hide CacheOk; hide RootOk;
    assert ProcOk(u, p, u.procs[p]);
  }

  /** The main result on revocation. In any interleaving with mints, rotations, rollbacks, other revocations
      and crashes, while the engine runs as a privileged identity: a revocation whose calls are answered ends
      only with its token dead, or because a rotation has replaced, since getClient, the credential with which
      it falls back; its record then stays for the next attempt. */
  lemma AnsweredRevocationSucceeds(s: State, actions: seq<Action>, i: int, p: Pid, e: Event)
    requires Reachable(s) && RunsAs(s, i) && i in s.aap.privileged
    requires forall k :: 0 <= k < |actions| ==> Undisturbed(actions[k])
    requires var u := Run(s, actions);
             p in u.procs && u.procs[p].Revoke? && Answers(e) && p !in Next(u, Act(p, e)).procs
    ensures var u := Run(s, actions);
            var t := Next(u, Act(p, e));
            var r := u.procs[p].r;
            || (r.Revoked? && r.id !in u.aap.live && t.aap == u.aap)
            || (&& r.ByCurrent? && r.current.version < u.version
                && t.aap == u.aap && t.wal == u.wal && t.leases == u.leases)
  {
    hide Reachable; hide Inv; hide Run; hide Next; hide RunsAs; hide MayDelete; hide ActsAs;
    ReachableInv(s);
    RunRunsAs(s, actions, i);
    RunKeepsPrivileges(s, actions);
    var u := Run(s, actions);
    RunsMeansActs(u, i);
    AnsweredEnds(u, p, e, i);
    EndKeepsRecords(u, p, e);
    if u.procs[p].r.Revoked? {
      RevokedIsDead(u, p);
    } else {
      StaleIfRefused(u, p, i);
    }
  }

  lemma EndKeepsRecords(u: State, p: Pid, e: Event)
    requires p in u.procs && u.procs[p].Revoke? && Answers(e)
    ensures var t := Next(u, Act(p, e));
            && (u.procs[p].r.Revoked? ==> t.aap == u.aap)
            && (u.procs[p].r.ByCurrent? && !MayDelete(u.aap, u.procs[p].r.current.client.auth, u.procs[p].r.id) ==>
                  t.aap == u.aap && t.wal == u.wal && t.leases == u.leases)
  {
    hide NewClient; hide MayDelete; hide CredsStep; hide RotateStep; hide WriteStep; hide Start;
  }

  /** The present configuration's client is never refused, so a client that is refused is of an older one. */
  lemma StaleIfRefused(u: State, p: Pid, i: int)
    requires Inv(u) && ActsAs(u, i) && i in u.aap.privileged && p in u.procs && u.procs[p].Revoke?
        && u.procs[p].r.ByCurrent?
    requires !MayDelete(u.aap, u.procs[p].r.current.client.auth, u.procs[p].r.id)
    ensures u.procs[p].r.current.version < u.version
  {
    hide Inv; hide NewClient; hide MayDelete; hide ActsAs;
    HandIsOk(u, p);
    StoredBuildsClient(u, i);
    ActorMayDelete(u, i, u.procs[p].r.id);
  }

  /** And exactly then: for a client that getClient handed out during the run, an answered fallback DELETE
      fails if and only if the client's credential is a root token that has been revoked since. */
  lemma FallbackFailsIff(s: State, actions: seq<Action>, i: int, p: Pid)
    requires Reachable(s) && RunsAs(s, i) && i in s.aap.privileged
    requires forall k :: 0 <= k < |actions| ==> Undisturbed(actions[k])
    requires var u := Run(s, actions);
             p in u.procs && u.procs[p].Revoke? && u.procs[p].r.ByCurrent? && s.version <= u.procs[p].r.current.version
    ensures var u := Run(s, actions);
            var auth := u.procs[p].r.current.client.auth;
            var t := Next(u, Act(p, DeleteReplied(Deleted)));
            && (p !in t.procs <==> auth.Bearer? && auth.token in u.aap.secrets && u.aap.secrets[auth.token] !in u.aap.live)
            && (p in t.procs ==> t.procs[p].Revoke? && t.procs[p].r == Revoked(u.procs[p].r.id) && u.procs[p].r.id !in t.aap.live)
            && (p !in t.procs ==> IsRootToken(u, u.aap.secrets[auth.token]) && u.procs[p].r.current.version < u.version)
  {
    hide Reachable; hide Inv; hide Run; hide Next; hide RunsAs; hide MayDelete; hide ActsAs;
    ReachableInv(s);
    RunsMeansActs(s, i);
    ClientsActNow(s, i);
    RunKeepsClients(s, actions, i, s.version);
    RunRunsAs(s, actions, i);
    RunKeepsPrivileges(s, actions);
    var u := Run(s, actions);
    var k := u.procs[p].r.current;
    assert InHand(u.procs[p]) == Some(k);
    assert ActsAuth(u.aap, k.client.auth, i);
    MayDeleteIff(u.aap, k.client.auth, i, u.procs[p].r.id);
    FallbackSucceedsIff(u, p, u.procs[p].src, u.procs[p].r.id, u.procs[p].r.since, k);
    NextKeeps(u, Act(p, DeleteReplied(Deleted)));
    if !DeadRoot(u.aap, k.client.auth) { RevokedIsDead(Next(u, Act(p, DeleteReplied(Deleted))), p); }
    if DeadRoot(u.aap, k.client.auth) {
      RunsMeansActs(u, i);
      StaleIfRefused(u, p, i);
    }
  }

  // ----- A mint whose WAL entry could not be written

  function HeldConfig(pc: Proc): Option<Config> {
    match pc
    case Creds(ResolveApp(q)) => Some(q.config)
    case Creds(ResolveUser(q)) => Some(q.config)
    case Creds(Mint(q)) => Some(q.config)
    case Creds(PutWal(q, _)) => Some(q.config)
    case Creds(DropUnlogged(q, _)) => Some(q.config)
    case Creds(GuardApp(q, _, _)) => Some(q.config)
    case Creds(GuardUser(q, _, _)) => Some(q.config)
    case Creds(CheckContext(q, _, _)) => Some(q.config)
    case Creds(Undo(q, _, _)) => Some(q.config)
    case Creds(UndoWal(q, _, _)) => Some(q.config)
    case Creds(Commit(q, _, _)) => Some(q.config)
    case Creds(UndoCommit(q, _, _)) => Some(q.config)
    case _ => None
  }

  /** The configurations that creds requests mint with are i's. */
  ghost predicate RequestsAct(s: State, i: int) {
    forall p :: p in s.procs && HeldConfig(s.procs[p]).Some? ==> ConfigActs(s, HeldConfig(s.procs[p]).value, i)
  }

  lemma EarlyConfigIsKept(s: State, p: Pid, c: CredsPc, e: Event)
    requires p in s.procs && s.procs[p] == Creds(c) && (c.ReadConfig? || c.ResolveApp? || c.ResolveUser? || c.PutWal?)
    ensures var t := CredsStep(s, p, c, e);
            p in t.procs && HeldConfig(t.procs[p]).Some? ==>
              HeldConfig(t.procs[p]) == HeldConfig(s.procs[p]) || HeldConfig(t.procs[p]) == s.config
  {
    hide NewClient; hide ResolveId; hide SweepListStep; hide SweepDeleteStep; hide AwaitMintStep; hide DropUnloggedStep;
    hide GuardAppStep; hide GuardUserStep; hide CheckContextStep; hide UndoStep; hide UndoWalStep; hide CommitStep;
    hide UndoCommitStep; hide RespondStep;
  }

  lemma LateConfigIsKept(s: State, p: Pid, c: CredsPc, e: Event)
    requires p in s.procs && s.procs[p] == Creds(c) && !c.ReadConfig? && !c.ResolveApp? && !c.ResolveUser? && !c.PutWal?
    requires !c.Mint? && !c.SweepList? && !c.SweepDelete?
    ensures var t := CredsStep(s, p, c, e);
            p in t.procs && HeldConfig(t.procs[p]).Some? ==> HeldConfig(t.procs[p]) == HeldConfig(s.procs[p])
  {
    hide ReadConfigStep; hide ResolveAppStep; hide ResolveUserStep; hide PutWalStep; hide SweepListStep;
    hide SweepDeleteStep; hide AwaitMintStep; hide DropUnloggedStep; hide GuardAppStep; hide GuardUserStep;
    hide CheckContextStep; hide UndoStep; hide UndoWalStep; hide CommitStep; hide UndoCommitStep; hide RespondStep;
    if c.DropUnlogged? || c.Undo? || c.UndoCommit? { DeletesKeepConfig(s, p, c, e); } else { GuardsKeepConfig(s, p, c, e); }
  }

  lemma DeletesKeepConfig(s: State, p: Pid, c: CredsPc, e: Event)
    requires p in s.procs && s.procs[p] == Creds(c) && (c.DropUnlogged? || c.Undo? || c.UndoCommit?)
    ensures var t := CredsStep(s, p, c, e);
            p in t.procs && HeldConfig(t.procs[p]).Some? ==> HeldConfig(t.procs[p]) == HeldConfig(s.procs[p])
  {
    hide NewClient; hide Delete; hide DeleteConfirmed; hide ReadConfigStep; hide ResolveAppStep; hide ResolveUserStep;
    hide PutWalStep; hide SweepListStep; hide SweepDeleteStep; hide AwaitMintStep; hide GuardAppStep;
    hide GuardUserStep; hide CheckContextStep; hide UndoWalStep; hide CommitStep; hide RespondStep;
  }

  lemma GuardsKeepConfig(s: State, p: Pid, c: CredsPc, e: Event)
    requires p in s.procs && s.procs[p] == Creds(c)
    requires c.GuardApp? || c.GuardUser? || c.CheckContext? || c.UndoWal? || c.Commit? || c.Respond?
    ensures var t := CredsStep(s, p, c, e);
            p in t.procs && HeldConfig(t.procs[p]).Some? ==> HeldConfig(t.procs[p]) == HeldConfig(s.procs[p])
  {
    hide NewClient; hide Works; hide ReadConfigStep; hide ResolveAppStep; hide ResolveUserStep; hide PutWalStep;
    hide SweepListStep; hide SweepDeleteStep; hide AwaitMintStep; hide DropUnloggedStep; hide UndoStep;
    hide UndoCommitStep;
  }

  /** A creds request keeps the configuration it read. */
  lemma ConfigIsKept(s: State, p: Pid, c: CredsPc, e: Event)
    requires p in s.procs && s.procs[p] == Creds(c)
    ensures var t := CredsStep(s, p, c, e);
            p in t.procs && HeldConfig(t.procs[p]).Some? ==>
              HeldConfig(t.procs[p]) == HeldConfig(s.procs[p]) || HeldConfig(t.procs[p]) == s.config
  {
    hide ReadConfigStep; hide ResolveAppStep; hide ResolveUserStep; hide PutWalStep; hide SweepListStep;
    hide SweepDeleteStep; hide AwaitMintStep; hide DropUnloggedStep; hide GuardAppStep; hide GuardUserStep;
    hide CheckContextStep; hide UndoStep; hide UndoWalStep; hide CommitStep; hide UndoCommitStep; hide RespondStep;
    match c
    case Mint(q) => MintKeepsConfig(s, p, q, e);
    case SweepList(auth, description, _, token) => SweepHoldsNone(s, p, auth, description, [], token, e);
    case SweepDelete(auth, ids, token) => SweepHoldsNone(s, p, auth, "", ids, token, e);
    case _ =>
      if c.ReadConfig? || c.ResolveApp? || c.ResolveUser? || c.PutWal? { EarlyConfigIsKept(s, p, c, e); }
      else { LateConfigIsKept(s, p, c, e); }
  }

  lemma MintKeepsConfig(s: State, p: Pid, q: Request, e: Event)
    requires p in s.procs && s.procs[p] == Creds(Mint(q))
    ensures var t := AwaitMintStep(s, p, q, e);
            p in t.procs && HeldConfig(t.procs[p]).Some? ==> HeldConfig(t.procs[p]) == Some(q.config)
  {
    hide NewClient; hide Creates; hide Post;
  }

  lemma SweepHoldsNone(s: State, p: Pid, auth: Auth, description: string, ids: seq<int>, token: Option<int>, e: Event)
    requires p in s.procs && s.procs[p].Creds? && (s.procs[p].c.SweepList? || s.procs[p].c.SweepDelete?)
    ensures p in SweepListStep(s, p, auth, description, token, e).procs ==>
              HeldConfig(SweepListStep(s, p, auth, description, token, e).procs[p]).None?
    ensures p in SweepDeleteStep(s, p, auth, ids, token, e).procs ==>
              HeldConfig(SweepDeleteStep(s, p, auth, ids, token, e).procs[p]).None?
  {
    hide Delete; hide DeleteConfirmed; hide Works; hide Truthful; hide IdsWithDescription; hide AbandonAny;
  }

  lemma StepKeepsConfigs(s: State, a: Action, p: Pid)
    requires Inv(s) && p in Next(s, a).procs && HeldConfig(Next(s, a).procs[p]).Some?
    ensures HeldConfig(Next(s, a).procs[p]) == s.config
            || (p in s.procs && HeldConfig(Next(s, a).procs[p]) == HeldConfig(s.procs[p]))
  {
    hide Inv; hide NewClient; hide CredsStep; hide RevokeStep; hide RotateStep; hide WriteStep; hide TargetOf;
    hide Grows; hide AfterCrash;
    if a.Act? {
      StepMovesOne(s, a.p, a.e);
      if p == a.p && p in s.procs {
        match s.procs[p]
        case Creds(c) => ConfigIsKept(s, p, c, a.e);
        case Revoke(src, r) => RevokeGrows(s, p, src, r, a.e);
        case Rotate(t) => RootOpsStayRootOps(s, p, t, ResetClient, a.e);
        case Write(w) => RootOpsStayRootOps(s, p, LoadRoot, w, a.e);
      }
    }
  }

  /** So it is when every request in flight has read the configuration that is stored now. */
  lemma RequestsActNow(s: State, i: int)
    requires Inv(s) && ActsAs(s, i)
    requires forall p :: p in s.procs && HeldConfig(s.procs[p]).Some? ==> HeldConfig(s.procs[p]) == s.config
    ensures RequestsAct(s, i)
  {
    hide Inv; hide NewClient; hide ConfigActs; hide ActsAs;
    StoredActs(s, i);
  }

  lemma RequestsActStays(s: State, a: Action, i: int)
    requires Inv(s) && RunsAs(s, i) && Undisturbed(a) && RequestsAct(s, i)
    ensures RequestsAct(Next(s, a), i)
  {
    hide Inv; hide Next; hide NewClient; hide RunsAs; hide ConfigActs; hide Grows;
    StepGrows(s, a);
    RunsMeansActs(s, i);
    StoredActs(s, i);
    forall p | p in Next(s, a).procs && HeldConfig(Next(s, a).procs[p]).Some?
      ensures ConfigActs(Next(s, a), HeldConfig(Next(s, a).procs[p]).value, i)
    {
      StepKeepsConfigs(s, a, p);
      ConfigActsStays(s, Next(s, a), HeldConfig(Next(s, a).procs[p]).value, i);
    }
  }

  lemma {:induction false} RunKeepsRequests(s: State, actions: seq<Action>, i: int)
    requires Inv(s) && RunsAs(s, i) && RequestsAct(s, i) && forall k :: 0 <= k < |actions| ==> Undisturbed(actions[k])
    ensures RequestsAct(Run(s, actions), i)
  {
    hide Inv; hide Next; hide RunsAs; hide Undisturbed; hide RequestsAct;
    if actions != [] {
      var n := |actions| - 1;
      RunKeepsRequests(s, actions[..n], i);
      RunRunsAs(s, actions[..n], i);
      RequestsActStays(Run(s, actions[..n]), actions[n], i);
    }
  }

  /** If PutWAL fails while the engine runs as a privileged identity, and AAP answers the DELETE that follows,
      the token is lost if and only if the root token that the request read has been revoked since. It is lost
      although the configuration now stored could delete it: the engine does not try. */
  lemma UnloggedIsLostInRunIff(s: State, actions: seq<Action>, i: int, p: Pid, q: Request, id: int)
    requires Reachable(s) && RunsAs(s, i) && RequestsAct(s, i) && i in s.aap.privileged
    requires forall k :: 0 <= k < |actions| ==> Undisturbed(actions[k])
    requires var u := Run(s, actions);
             p in u.procs && u.procs[p] == Creds(DropUnlogged(q, id)) && id in u.aap.live
    ensures var u := Run(s, actions);
            var t := Next(u, Act(p, DeleteReplied(Deleted)));
            && id in t.ledger && (id in t.aap.live <==> t.ledger[id] == Orphan(WalAndRevokeFailed))
            && (id in t.aap.live <==> q.config.tokenId > 0 && q.config.tokenId !in u.aap.live)
            && u.config.Some? && NewClient(u.env, u.config.value).Ok?
                && MayDelete(u.aap, AdminAuth(u.env, u.config.value), id)
  {
    hide Reachable; hide Inv; hide Run; hide Next; hide RunsAs; hide MayDelete; hide ActsAs; hide NewClient;
    hide RequestsAct;
    ReachableInv(s);
    RunRunsAs(s, actions, i);
    RunKeepsRequests(s, actions, i);
    RunKeepsPrivileges(s, actions);
    var u := Run(s, actions);
    RunsMeansActs(u, i);
    StoredBuildsClient(u, i);
    ActorMayDelete(u, i, id);
    assert ConfigActs(u, q.config, i) by { HeldActs(u, p, i); }
    DeadConfigIff(u, q.config, i);
    MayDeleteIff(u.aap, AdminAuth(u.env, q.config), i, id);
    UnloggedIsLostIff(u, p, q, id, Deleted);
  }

  lemma HeldActs(u: State, p: Pid, i: int)
    requires RequestsAct(u, i) && p in u.procs && HeldConfig(u.procs[p]).Some?
    ensures ConfigActs(u, HeldConfig(u.procs[p]).value, i)
  {
  }
}
