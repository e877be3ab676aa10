/** Guarded issuance: whatever interleaving produced a lease, its token belongs to the user and is bound to
    the application that the role names. */
module Issuance {
  import opened Wrappers
  import opened Client
  import opened ConfigWrite
  import opened Marker
  import opened Aap
  import opened Roles
  import opened Protocol
  import opened Invariant
  import opened StepKinds
  import opened Lifecycle
  import opened Ownership
  import opened Effects
  import opened Progress

  /** Some step of this run gave the creds request at c this id for this name. */
  ghost predicate LookedUp(s0: State, actions: seq<Action>, c: CredsPc, name: string, id: int) {
    exists k :: 0 <= k < |actions| && Answers(Run(s0, actions[..k]), actions[k], c, name, id)
  }

  predicate Answers(s: State, a: Action, c: CredsPc, name: string, id: int) {
    a.Act? && a.p in s.procs && s.procs[a.p] == Creds(c) && a.e.Lookup? && ResolveId(a.e.named, name) == Ok(id)
  }

  /** Where this request waits for its applications listing, and where for its users listing. */
  function AppAsked(q: Request): CredsPc { ResolveApp(q.(application := 0, user := 0)) }
  function UserAsked(q: Request): CredsPc { ResolveUser(q.(user := 0)) }

  ghost predicate AppResolved(s0: State, actions: seq<Action>, q: Request) {
    if q.role.application == "" then q.application == 0
    else q.application > 0 && LookedUp(s0, actions, AppAsked(q), q.role.application, q.application)
  }

  ghost predicate Resolved(s0: State, actions: seq<Action>, q: Request) {
    && AppResolved(s0, actions, q)
    && (q.role.username != "" ==> LookedUp(s0, actions, UserAsked(q), q.role.username, q.user))
  }

  predicate Bound(a: Server, q: Request, id: int) {
    q.role.application != "" ==> id in a.tokens && a.tokens[id].application == q.application
  }

  predicate Owned(a: Server, q: Request, id: int) {
    q.role.username != "" ==> id in a.tokens && a.tokens[id].owner == q.user
  }

  /** The token's description in AAP tells the configured prefix and the role's description, and the marker that
      it was minted with. */
  predicate Tagged(a: Server, q: Request, id: int) {
    && id in a.tokens && a.tokens[id].marker.Some?
    && Tells(a.tokens[id].description, q.config.tokenDescriptionPrefix + q.role.description, a.tokens[id].marker.value)
  }

  /** A lease carries its request's own role, configuration and TTLs, and its token passed both guards. */
  ghost predicate Guarded(a: Server, s0: State, actions: seq<Action>, lease: Lease) {
    var q := lease.request;
    && lease == Lease(Grant(lease.grant.id, q.name, q.config), q.role.ttl, q.role.maxTtl, q)
    && Resolved(s0, actions, q) && Bound(a, q, lease.grant.id) && Owned(a, q, lease.grant.id)
        && Tagged(a, q, lease.grant.id)
  }

  /** What a creds request has established so far. */
  ghost predicate Established(a: Server, s0: State, actions: seq<Action>, c: CredsPc) {
    match c
    case ResolveApp(q) => q.application == 0 && q.user == 0 && q.role.application != ""
    case ResolveUser(q) => AppResolved(s0, actions, q) && q.user == 0 && q.role.username != ""
    case Mint(q) => Resolved(s0, actions, q)
    case PutWal(q, id) => Resolved(s0, actions, q) && Tagged(a, q, id)
    case GuardApp(q, id, _) => Resolved(s0, actions, q) && Tagged(a, q, id)
    case GuardUser(q, id, _) => Resolved(s0, actions, q) && Tagged(a, q, id) && Bound(a, q, id)
    case CheckContext(q, id, _) => Resolved(s0, actions, q) && Tagged(a, q, id) && Bound(a, q, id) && Owned(a, q, id)
    case Commit(q, id, _) => Resolved(s0, actions, q) && Tagged(a, q, id) && Bound(a, q, id) && Owned(a, q, id)
    case Respond(lease) => Guarded(a, s0, actions, lease)
    case _ => true
  }

  ghost predicate IssuanceInv(s: State, s0: State, actions: seq<Action>) {
    && (forall p :: p in s.procs && s.procs[p].Creds? ==> Established(s.aap, s0, actions, s.procs[p].c))
    && (forall l :: l in s.leases ==> Guarded(s.aap, s0, actions, s.leases[l]))
  }

  // ----- Facts survive

  lemma LookedUpStays(s0: State, actions: seq<Action>, a: Action, c: CredsPc, name: string, id: int)
    requires LookedUp(s0, actions, c, name, id)
    ensures LookedUp(s0, actions + [a], c, name, id)
  {
    hide Run; hide Answers;
    var k :| 0 <= k < |actions| && Answers(Run(s0, actions[..k]), actions[k], c, name, id);
    assert (actions + [a])[..k] == actions[..k] && (actions + [a])[k] == actions[k];
  }

  lemma ResolvedStays(s0: State, actions: seq<Action>, a: Action, q: Request)
    ensures AppResolved(s0, actions, q) ==> AppResolved(s0, actions + [a], q)
    ensures Resolved(s0, actions, q) ==> Resolved(s0, actions + [a], q)
  {
    hide LookedUp;
    if LookedUp(s0, actions, AppAsked(q), q.role.application, q.application) {
      LookedUpStays(s0, actions, a, AppAsked(q), q.role.application, q.application);
    }
    if LookedUp(s0, actions, UserAsked(q), q.role.username, q.user) {
      LookedUpStays(s0, actions, a, UserAsked(q), q.role.username, q.user);
    }
  }

  lemma EstablishedStays(a: Server, b: Server, s0: State, actions: seq<Action>, act: Action, c: CredsPc)
    requires KeepsTokens(a, b) && Established(a, s0, actions, c)
    ensures Established(b, s0, actions + [act], c)
  {
    hide AppResolved; hide Resolved;
    match c
    case Respond(lease) => GuardedStays(a, b, s0, actions, act, lease);
    case ResolveUser(q) => ResolvedStays(s0, actions, act, q);
    case Mint(q) => ResolvedStays(s0, actions, act, q);
    case PutWal(q, _) => ResolvedStays(s0, actions, act, q);
    case GuardApp(q, _, _) => ResolvedStays(s0, actions, act, q);
    case GuardUser(q, _, _) => ResolvedStays(s0, actions, act, q);
    case CheckContext(q, _, _) => ResolvedStays(s0, actions, act, q);
    case Commit(q, _, _) => ResolvedStays(s0, actions, act, q);
    case _ =>
  }

  lemma GuardedStays(a: Server, b: Server, s0: State, actions: seq<Action>, act: Action, lease: Lease)
    requires KeepsTokens(a, b) && Guarded(a, s0, actions, lease)
    ensures Guarded(b, s0, actions + [act], lease)
  {
    hide AppResolved; hide Resolved;
    ResolvedStays(s0, actions, act, lease.request);
  }

  // ----- Each step of a creds request establishes the next fact

  lemma AnsweredNow(s0: State, actions: seq<Action>, p: Pid, c: CredsPc, e: Event, name: string, id: int)
    requires Answers(Run(s0, actions), Act(p, e), c, name, id)
    ensures LookedUp(s0, actions + [Act(p, e)], c, name, id)
  {
    hide Run; hide Answers;
    var k := |actions|;
    assert (actions + [Act(p, e)])[..k] == actions && (actions + [Act(p, e)])[k] == Act(p, e);
  }

  lemma ResolvesMore(s: State, p: Pid, s0: State, actions: seq<Action>, c: CredsPc, e: Event)
    requires s == Run(s0, actions) && p in s.procs && s.procs[p] == Creds(c) && Established(s.aap, s0, actions, c)
    requires c.ReadConfig? || c.ResolveApp? || c.ResolveUser?
    ensures var t := CredsStep(s, p, c, e);
            p in t.procs ==> t.procs[p].Creds? && Established(t.aap, s0, actions + [Act(p, e)], t.procs[p].c)
  {
    hide Run; hide LookedUp; hide NewClient; hide ResolveId; hide AwaitMintStep; hide SweepListStep;
    hide SweepDeleteStep; hide PutWalStep; hide DropUnloggedStep; hide GuardAppStep; hide GuardUserStep;
    hide CheckContextStep; hide UndoStep; hide UndoWalStep; hide CommitStep; hide UndoCommitStep; hide RespondStep;
    if c.ResolveApp? {
      ResolvedStays(s0, actions, Act(p, e), c.q);
      if e.Lookup? && ResolveId(e.named, c.q.role.application).Ok? {
        AnsweredNow(s0, actions, p, c, e, c.q.role.application, ResolveId(e.named, c.q.role.application).value);
        FoundIsPositive(e.named, c.q.role.application);
      }
    } else if c.ResolveUser? {
      ResolvedStays(s0, actions, Act(p, e), c.q);
      if e.Lookup? && ResolveId(e.named, c.q.role.username).Ok? {
        AnsweredNow(s0, actions, p, c, e, c.q.role.username, ResolveId(e.named, c.q.role.username).value);
      }
    }
  }

  lemma FoundIsPositive(rows: seq<Named>, name: string)
    ensures ResolveId(rows, name).Ok? ==> ResolveId(rows, name).value > 0
  {
  }

  lemma MintEstablishes(s: State, p: Pid, s0: State, actions: seq<Action>, q: Request, e: Event)
    requires p in s.procs && s.procs[p] == Creds(Mint(q)) && Resolved(s0, actions, q)
    ensures var t := AwaitMintStep(s, p, q, e);
            p in t.procs ==> t.procs[p].Creds? && Established(t.aap, s0, actions + [Act(p, e)], t.procs[p].c)
  {
    hide Resolved; hide NewClient; hide MintDescription; hide IdentityOf; hide Tagged;
    ResolvedStays(s0, actions, Act(p, e), q);
    MintIsTagged(s, p, q, e);
  }

  /** Every token that a creds request mints, answered or not, is tagged by that request. */
  lemma MintIsTagged(s: State, p: Pid, q: Request, e: Event)
    requires p in s.procs && s.procs[p] == Creds(Mint(q))
    ensures var t := AwaitMintStep(s, p, q, e);
            && (forall id :: id in t.aap.live && id !in s.aap.live ==> id == s.aap.nextId && Tagged(t.aap, q, id))
            && (p in t.procs && t.procs[p].Creds? && t.procs[p].c.PutWal? ==>
                  t.procs[p].c.id == s.aap.nextId && Tagged(t.aap, q, t.procs[p].c.id))
  {
    hide NewClient; hide MintDescription; hide IdentityOf; hide Tells;
    if e.PostReplied? && IsRequestId(e.requestId) {
      MintDescriptionTells(q.config.tokenDescriptionPrefix, q.role.description, e.requestId);
    }
  }

  lemma GuardsEstablish(s: State, p: Pid, s0: State, actions: seq<Action>, c: CredsPc, e: Event)
    requires p in s.procs && s.procs[p] == Creds(c) && Established(s.aap, s0, actions, c)
    requires c.PutWal? || c.GuardApp? || c.GuardUser? || c.CheckContext?
    ensures var t := CredsStep(s, p, c, e);
            p in t.procs ==> t.procs[p].Creds? && Established(t.aap, s0, actions + [Act(p, e)], t.procs[p].c)
  {
    hide LookedUp; hide NewClient; hide Works; hide ReadConfigStep; hide ResolveAppStep; hide ResolveUserStep;
    hide AwaitMintStep; hide SweepListStep; hide SweepDeleteStep; hide DropUnloggedStep; hide UndoStep;
    hide UndoWalStep; hide CommitStep; hide UndoCommitStep; hide RespondStep;
    ResolvedStays(s0, actions, Act(p, e), c.q);
  }

  lemma CommitEstablishes(s: State, p: Pid, s0: State, actions: seq<Action>, c: CredsPc, e: Event)
    requires p in s.procs && s.procs[p] == Creds(c) && Established(s.aap, s0, actions, c)
    requires c.Commit? || c.Undo? || c.UndoWal? || c.UndoCommit? || c.DropUnlogged?
    ensures var t := CredsStep(s, p, c, e);
            p in t.procs ==> t.procs[p].Creds? && Established(t.aap, s0, actions + [Act(p, e)], t.procs[p].c)
  {
    hide Resolved; hide NewClient; hide Delete; hide DeleteConfirmed; hide ReadConfigStep; hide ResolveAppStep;
    hide ResolveUserStep; hide AwaitMintStep; hide SweepListStep; hide SweepDeleteStep; hide PutWalStep;
    hide GuardAppStep; hide GuardUserStep; hide CheckContextStep; hide RespondStep;
    ResolvedStays(s0, actions, Act(p, e), c.q);
  }

  lemma SweepsAndResponds(s: State, p: Pid, s0: State, actions: seq<Action>, c: CredsPc, e: Event)
    requires p in s.procs && s.procs[p] == Creds(c) && Established(s.aap, s0, actions, c)
    requires c.SweepList? || c.SweepDelete? || (c.Respond? && e.Succeeds?)
    ensures var t := CredsStep(s, p, c, e);
            p in t.procs ==> t.procs[p].Creds? && Established(t.aap, s0, actions + [Act(p, e)], t.procs[p].c)
  {
    hide Resolved; hide NewClient; hide Delete; hide DeleteConfirmed; hide Works; hide Truthful;
    hide IdsWithDescription; hide ReadConfigStep; hide ResolveAppStep; hide ResolveUserStep; hide AwaitMintStep;
    hide PutWalStep; hide DropUnloggedStep; hide GuardAppStep; hide GuardUserStep; hide CheckContextStep; hide UndoStep;
    hide UndoWalStep; hide CommitStep; hide UndoCommitStep;
  }

  lemma CredsEstablish(s: State, p: Pid, s0: State, actions: seq<Action>, c: CredsPc, e: Event)
    requires s == Run(s0, actions) && p in s.procs && s.procs[p] == Creds(c) && Established(s.aap, s0, actions, c)
    ensures var t := CredsStep(s, p, c, e);
            p in t.procs ==> t.procs[p].Creds? && Established(t.aap, s0, actions + [Act(p, e)], t.procs[p].c)
  {
    hide Run; hide Established; hide ReadConfigStep; hide ResolveAppStep; hide ResolveUserStep; hide AwaitMintStep;
    hide SweepListStep; hide SweepDeleteStep; hide PutWalStep; hide DropUnloggedStep; hide GuardAppStep;
    hide GuardUserStep; hide CheckContextStep; hide UndoStep; hide UndoWalStep; hide CommitStep; hide UndoCommitStep;
    hide RespondStep;
    match c
    case Mint(q) =>
      assert Resolved(s0, actions, q) by { MintIsResolved(s.aap, s0, actions, q); }
      MintEstablishes(s, p, s0, actions, q, e);
    case Respond(_) =>
      if e.Succeeds? { SweepsAndResponds(s, p, s0, actions, c, e); } else { StillResponding(s, p, s0, actions, c, e); }
    case _ =>
      if c.ReadConfig? || c.ResolveApp? || c.ResolveUser? { ResolvesMore(s, p, s0, actions, c, e); }
      else if c.PutWal? || c.GuardApp? || c.GuardUser? || c.CheckContext? { GuardsEstablish(s, p, s0, actions, c, e); }
      else if c.SweepList? || c.SweepDelete? { SweepsAndResponds(s, p, s0, actions, c, e); }
      else { CommitEstablishes(s, p, s0, actions, c, e); }
  }

  lemma MintIsResolved(a: Server, s0: State, actions: seq<Action>, q: Request)
    requires Established(a, s0, actions, Mint(q))
    ensures Resolved(s0, actions, q)
  {
  }

  lemma StillResponding(s: State, p: Pid, s0: State, actions: seq<Action>, c: CredsPc, e: Event)
    requires p in s.procs && s.procs[p] == Creds(c) && Established(s.aap, s0, actions, c) && c.Respond? && !e.Succeeds?
    ensures CredsStep(s, p, c, e) == s && Established(s.aap, s0, actions + [Act(p, e)], c)
  {
    hide Established;
    assert KeepsTokens(s.aap, s.aap);
    EstablishedStays(s.aap, s.aap, s0, actions, Act(p, e), c);
  }

  // ----- Leases appear only when a creds request responds

  ghost predicate NoNewLeases(s: State, t: State) {
    forall l :: l in t.leases ==> l in s.leases && t.leases[l] == s.leases[l]
  }

  lemma CredsAddsNoLease(s: State, p: Pid, c: CredsPc, e: Event)
    requires !c.Respond?
    ensures CredsStep(s, p, c, e).leases == s.leases && CredsStep(s, p, c, e).nextLease == s.nextLease
  {
    hide NewClient; hide Delete; hide DeleteConfirmed; hide Works; hide ResolveId; hide AfterConfig; hide AfterApp;
    hide AfterWal; hide AfterGuardApp; hide RespondStep; hide SweepListStep; hide SweepDeleteStep; hide AwaitMintStep;
    match c
    case Mint(q) => MintKeepsRecords(s, p, q, e);
    case SweepList(auth, description, _, token) => SweepListKeepsRecords(s, p, auth, description, token, e);
    case SweepDelete(auth, ids, token) => SweepDeleteKeepsRecords(s, p, auth, ids, token, e);
    case _ =>
  }

  lemma RevokeAddsNoLease(s: State, p: Pid, src: Source, r: RevokePc, e: Event)
    ensures NoNewLeases(s, RevokeStep(s, p, src, r, e)) && RevokeStep(s, p, src, r, e).nextLease == s.nextLease
  {
    hide NewClient; hide Delete; hide DeleteConfirmed;
  }

  lemma RotateAddsNoLease(s: State, p: Pid, t: RotatePc, e: Event)
    ensures RotateStep(s, p, t, e).leases == s.leases && RotateStep(s, p, t, e).nextLease == s.nextLease
  {
    hide NewClient; hide Delete; hide DeleteConfirmed; hide Works; hide MintRootStep; hide Abandon;
    AbandonsOnly();
    if t.MintRoot? { MintRootAddsNoLease(s, p, t.config, e); }
  }

  lemma AbandonsOnly()
    ensures forall u: State, id, cause :: Abandon(u, id, cause) == u.(ledger := Abandon(u, id, cause).ledger)
  {
  }

  lemma MintRootAddsNoLease(s: State, p: Pid, config: Config, e: Event)
    ensures MintRootStep(s, p, config, e).leases == s.leases && MintRootStep(s, p, config, e).nextLease == s.nextLease
  {
    hide NewClient; hide Creates; hide Post;
  }

  lemma WriteAddsNoLease(s: State, p: Pid, w: WritePc, e: Event)
    ensures WriteStep(s, p, w, e).leases == s.leases && WriteStep(s, p, w, e).nextLease == s.nextLease
  {
    hide NewClient; hide Works; hide Accept;
  }

  ghost predicate Responds(s: State, a: Action) {
    a.Act? && a.p in s.procs && s.procs[a.p].Creds? && s.procs[a.p].c.Respond?
  }

  lemma OnlyRespondAddsLease(s: State, a: Action)
    requires !Responds(s, a)
    ensures NoNewLeases(s, Next(s, a)) && Next(s, a).nextLease == s.nextLease
  {
    hide CredsStep; hide RevokeStep; hide RotateStep; hide WriteStep; hide TargetOf; hide AfterCrash;
    if a.Act? && a.p in s.procs {
      match s.procs[a.p]
      case Creds(c) => CredsAddsNoLease(s, a.p, c, a.e);
      case Revoke(src, r) => RevokeAddsNoLease(s, a.p, src, r, a.e);
      case Rotate(t) => RotateAddsNoLease(s, a.p, t, a.e);
      case Write(w) => WriteAddsNoLease(s, a.p, w, a.e);
    }
  }

  lemma RespondAddsItsLease(s: State, a: Action)
    requires Responds(s, a)
    ensures forall l :: l in Next(s, a).leases ==>
              || (l in s.leases && Next(s, a).leases[l] == s.leases[l])
              || Next(s, a).leases[l] == s.procs[a.p].c.lease
    ensures s.nextLease <= Next(s, a).nextLease
  {
  }

  /** Lease numbers are never used again. */
  lemma {:induction false} LeaseNumbersGrow(s: State, actions: seq<Action>)
    ensures s.nextLease <= Run(s, actions).nextLease
  {
    hide Next; hide Responds; hide NoNewLeases;
    if actions != [] {
      var n := |actions| - 1;
      LeaseNumbersGrow(s, actions[..n]);
      if Responds(Run(s, actions[..n]), actions[n]) { RespondAddsItsLease(Run(s, actions[..n]), actions[n]); }
      else { OnlyRespondAddsLease(Run(s, actions[..n]), actions[n]); }
    }
  }

  // ----- Every step, every run

  lemma LeasesStayGuarded(s: State, s0: State, actions: seq<Action>, a: Action, l: nat)
    requires Inv(s) && IssuanceInv(s, s0, actions) && l in Next(s, a).leases
    ensures Guarded(Next(s, a).aap, s0, actions + [a], Next(s, a).leases[l])
  {
    hide Inv; hide Next; hide Guarded; hide Established;
    NextKeepsTokens(s, a);
    if Responds(s, a) {
      RespondAddsItsLease(s, a);
      assert Guarded(s.aap, s0, actions, s.procs[a.p].c.lease) by { RespondIsGuarded(s.aap, s0, actions,
          s.procs[a.p].c); }
    } else {
      OnlyRespondAddsLease(s, a);
    }
    GuardedStays(s.aap, Next(s, a).aap, s0, actions, a, Next(s, a).leases[l]);
  }

  lemma RespondIsGuarded(a: Server, s0: State, actions: seq<Action>, c: CredsPc)
    requires c.Respond? && Established(a, s0, actions, c)
    ensures Guarded(a, s0, actions, c.lease)
  {
  }

  lemma RequestsStayEstablished(s: State, s0: State, actions: seq<Action>, a: Action, p: Pid)
    requires Inv(s) && s == Run(s0, actions) && IssuanceInv(s, s0, actions)
    requires p in Next(s, a).procs && Next(s, a).procs[p].Creds?
    ensures Established(Next(s, a).aap, s0, actions + [a], Next(s, a).procs[p].c)
  {
    hide Run; hide Inv; hide Guarded; hide Established; hide CredsStep; hide RevokeStep; hide RotateStep;
    hide WriteStep; hide TargetOf; hide Grows; hide ActorOnly;
    NextKeepsTokens(s, a);
    if p in s.procs && s.procs[p].Creds? && a.Act? && a.p == p {
      CredsEstablish(s, p, s0, actions, s.procs[p].c, a.e);
    } else if p in s.procs && a.Act? {
      StepMovesOne(s, a.p, a.e);
      MintingStaysMinting(s, a, p);
      EstablishedStays(s.aap, Next(s, a).aap, s0, actions, a, s.procs[p].c);
    } else if p in s.procs {
      EstablishedStays(s.aap, Next(s, a).aap, s0, actions, a, s.procs[p].c);
    } else {
      if a.Act? { StepMovesOne(s, a.p, a.e); }
      JustStarted(s, a, p);
      NothingYet(Next(s, a).aap, s0, actions + [a], Next(s, a).procs[p].c);
    }
  }

  /** A creds request was one before. */
  lemma MintingStaysMinting(s: State, a: Action, p: Pid)
    requires Inv(s) && a.Act? && p in s.procs && p in Next(s, a).procs && Next(s, a).procs[p].Creds?
    ensures s.procs[p].Creds?
  {
    hide Inv; hide CredsStep; hide RevokeStep; hide RotateStep; hide WriteStep; hide TargetOf; hide Grows;
    StepMovesOne(s, a.p, a.e);
    if a.p == p {
      match s.procs[p]
      case Revoke(src, r) => RevokeGrows(s, p, src, r, a.e);
      case Rotate(t) => RootOpsStayRootOps(s, p, t, ResetClient, a.e);
      case Write(w) => RootOpsStayRootOps(s, p, LoadRoot, w, a.e);
      case _ =>
    }
  }

  lemma JustStarted(s: State, a: Action, p: Pid)
    requires p !in s.procs && p in Next(s, a).procs && (a.Act? ==> SameOthers(s, Next(s, a), a.p))
    ensures Next(s, a).procs[p].Creds? ==> Next(s, a).procs[p].c.ReadConfig?
  {
    hide CredsStep; hide RevokeStep; hide RotateStep; hide WriteStep; hide TargetOf; hide AfterCrash;
  }

  lemma NothingYet(a: Server, s0: State, actions: seq<Action>, c: CredsPc)
    requires c.ReadConfig?
    ensures Established(a, s0, actions, c)
  {
  }

  lemma {:induction false} EveryRunIsGuarded(s0: State, actions: seq<Action>)
    requires Initial(s0)
    ensures IssuanceInv(Run(s0, actions), s0, actions)
  {
    hide Inv; hide Next; hide Guarded; hide Established;
    if actions != [] {
      var n := |actions| - 1;
      var s, a := Run(s0, actions[..n]), actions[n];
      EveryRunIsGuarded(s0, actions[..n]);
      InitialInv(s0);
      RunKeeps(s0, actions[..n]);
      assert actions == actions[..n] + [a];
      forall p | p in Next(s, a).procs && Next(s, a).procs[p].Creds?
        ensures Established(Next(s, a).aap, s0, actions, Next(s, a).procs[p].c)
      {
        RequestsStayEstablished(s, s0, actions[..n], a, p);
      }
      forall l | l in Next(s, a).leases
        ensures Guarded(Next(s, a).aap, s0, actions, Next(s, a).leases[l])
      {
        LeasesStayGuarded(s, s0, actions[..n], a, l);
      }
    }
  }

  /** The request at c was answered, at some step of this run, with a listing that holds exactly one row of
      this exact name, and that row has this id. */
  ghost predicate ListedOnce(s0: State, actions: seq<Action>, c: CredsPc, name: string, id: int) {
    exists k, i: nat :: 0 <= k < |actions| && IsAnswer(Run(s0, actions[..k]), actions[k], c, name, id, i)
  }

  predicate IsAnswer(s: State, a: Action, c: CredsPc, name: string, id: int, i: nat) {
    && a.Act? && a.p in s.procs && s.procs[a.p] == Creds(c) && a.e.Lookup?
    && UniqueMatch(a.e.named, name, i) && a.e.named[i].id == id > 0
  }

  lemma LookupIsUnique(s0: State, actions: seq<Action>, c: CredsPc, name: string, id: int)
    requires LookedUp(s0, actions, c, name, id)
    ensures ListedOnce(s0, actions, c, name, id)
  {
    hide Run;
    var k :| 0 <= k < |actions| && Answers(Run(s0, actions[..k]), actions[k], c, name, id);
    ResolveIdMeaning(actions[k].e.named, name, id);
    var i: nat :| UniqueMatch(actions[k].e.named, name, i) && actions[k].e.named[i].id == id > 0;
    assert IsAnswer(Run(s0, actions[..k]), actions[k], c, name, id, i);
  }

  /** In every run, the token of every lease is owned by the user that this very request was given, at its own
      users lookup, for the exact name in its role, and bound to the application it was given at its own
      applications lookup; each listing held that name once. Its description in AAP tells the configured prefix
      and the role's description. Its TTLs are the role's. */
  lemma EveryLeaseIsGuarded(s0: State, actions: seq<Action>, l: nat)
    requires Initial(s0) && l in Run(s0, actions).leases
    ensures var s := Run(s0, actions);
            var lease := s.leases[l];
            var q := lease.request;
            && lease.grant.id in s.aap.tokens && lease.grant.role == q.name && lease.grant.config == q.config
            && Tagged(s.aap, q, lease.grant.id)
            && lease.ttl == q.role.ttl && lease.maxTtl == q.role.maxTtl
            && (q.role.username != "" ==>
                  && s.aap.tokens[lease.grant.id].owner == q.user
                  && ListedOnce(s0, actions, UserAsked(q), q.role.username, q.user))
            && (q.role.application != "" ==>
                  && s.aap.tokens[lease.grant.id].application == q.application
                  && ListedOnce(s0, actions, AppAsked(q), q.role.application, q.application))
  {
    hide Inv; hide Run; hide ListedOnce; hide LookedUp;
    EveryRunIsGuarded(s0, actions);
    InitialInv(s0);
    RunKeeps(s0, actions);
    var s := Run(s0, actions);
    var q := s.leases[l].request;
    LeaseTokenKnown(s, l);
    assert Guarded(s.aap, s0, actions, s.leases[l]);
    if q.role.username != "" { LookupIsUnique(s0, actions, UserAsked(q), q.role.username, q.user); }
    if q.role.application != "" { LookupIsUnique(s0, actions, AppAsked(q), q.role.application, q.application); }
  }

  lemma LeaseTokenKnown(s: State, l: nat)
    requires Inv(s) && l in s.leases
    ensures s.leases[l].grant.id in s.aap.tokens
  {
    hide WellFormed; hide NewClient; hide ServerOk; hide WalOk; hide ProcOk; hide RootOk; hide LedgerOk; hide LocksOk;
    hide CacheOk;
  }

  // ----- A refused mint

  /** The request's token is recorded in the WAL and may still be given up. */
  predicate MayRefuse(c: CredsPc) {
    c.GuardApp? || c.GuardUser? || c.CheckContext? || c.Undo? || c.UndoWal? || c.UndoCommit?
  }

  lemma GuardsKeepRecord(s: State, p: Pid, c: CredsPc, e: Event)
    requires Inv(s) && p in s.procs && s.procs[p] == Creds(c) && MayRefuse(c)
    ensures var t := CredsStep(s, p, c, e);
            && c.id in t.ledger && (t.ledger[c.id].InWal? || t.ledger[c.id].Gone?)
            && (c.id in t.aap.live ==> c.w in t.wal && t.wal[c.w].id == c.id)
  {
    hide Inv; hide NewClient; hide WellFormed; hide Works; hide MayDelete; hide AfterGuardApp; hide ReadConfigStep;
    hide ResolveAppStep; hide ResolveUserStep; hide AwaitMintStep; hide SweepListStep; hide SweepDeleteStep;
    hide PutWalStep; hide DropUnloggedStep; hide CommitStep; hide RespondStep;
    Knows(s, p);
  }

  /** Until its WAL entry is given up for a lease, a mint can fail any guard, lose its caller or fail to
      clean up: no lease then names the token, and while it lives its WAL entry does. */
  lemma RefusedMintIsCovered(s: State, p: Pid, e: Event)
    requires Reachable(s) && p in s.procs && s.procs[p].Creds? && MayRefuse(s.procs[p].c)
    ensures var t := Next(s, Act(p, e));
            var c := s.procs[p].c;
            && (forall l :: l in t.leases ==> t.leases[l].grant.id != c.id)
            && (c.id in t.aap.live ==> c.w in t.wal && t.wal[c.w].id == c.id)
  {
    hide Reachable; hide Inv; hide CredsStep; hide RevokeStep; hide RotateStep; hide WriteStep;
    ReachableInv(s);
    NextKeeps(s, Act(p, e));
    GuardsKeepRecord(s, p, s.procs[p].c, e);
    Agrees(Next(s, Act(p, e)), s.procs[p].c.id);
  }

  // ----- A mint

  /** No minted token has the description of a request whose marker is new. */
  lemma DescriptionIsNew(s: State, description: string, requestId: string, id: int)
    requires Inv(s) && Marked(description, requestId) && requestId !in s.markers && id in s.aap.tokens
    ensures s.aap.tokens[id].description != description
  {
    hide Marked; hide WalOk; hide LeasesOk; hide RootOk; hide LedgerOk; hide LocksOk; hide CacheOk; hide ProcOk;
    RootIsUnmarked(requestId);
    if s.aap.tokens[id].description == description && s.aap.tokens[id].marker.Some? {
      MarkedDiffer(description, s.aap.tokens[id].marker.value, requestId);
    }
  }

  /** A mint whose answer arrives creates one new live token. It belongs to the bootstrap token's user if the
      role has a bootstrap token, to the engine's identity otherwise, and shares its description with no
      other minted token. The description tells the configured prefix and the role's description. */
  lemma MintBelongsToRequest(s: State, p: Pid, q: Request, e: Event)
    requires Inv(s) && p in s.procs && s.procs[p] == Creds(Mint(q))
    requires var t := Next(s, Act(p, e)); p in t.procs && t.procs[p].Creds? && t.procs[p].c.PutWal?
    ensures NewClient(s.env, q.config).Ok?
    ensures var t := Next(s, Act(p, e));
            var id := t.procs[p].c.id;
            var auth := if q.role.bootstrapToken != "" then Bearer(q.role.bootstrapToken) else NewClient(s.env, q.config).value.auth;
            && id !in s.aap.tokens && id in t.aap.live && id in t.aap.tokens
            && IdentityOf(s.aap, auth) == Some(t.aap.tokens[id].owner)
            && (forall x :: x in t.aap.tokens && t.aap.tokens[x].description == t.aap.tokens[id].description ==> x == id)
            && t.procs[p].c.q == q && Tagged(t.aap, q, id)
  {
    hide Inv; hide NewClient; hide MintDescription; hide IdentityOf; hide Marked; hide RevokeStep; hide RotateStep;
    hide WriteStep; hide Start; hide Tagged;
    MintIsTagged(s, p, q, e);
    NextIdIsNew(s);
    var description := MintDescription(q.config.tokenDescriptionPrefix, q.role.description, e.requestId);
    MintedIsMarked(q.config.tokenDescriptionPrefix, q.role.description, e.requestId);
    forall x | x in s.aap.tokens
      ensures s.aap.tokens[x].description != description
    {
      DescriptionIsNew(s, description, e.requestId, x);
    }
  }
}
