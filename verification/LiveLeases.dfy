/** Leases for live tokens: while a request stays within the minimum age, nobody deletes its token before its
    lease is registered. */
module LiveLeases {
  import opened Wrappers
  import opened Client
  import opened ConfigWrite
  import opened Marker
  import opened Aap
  import opened Roles
  import opened Protocol
  import opened Invariant
  import opened StepKinds
  import opened Lifecycle
  import opened Ownership
  import opened Effects
  import opened Progress
  import opened Issuance
  import opened Clock

  // ----- Who deletes a token

  /** The operation's next DELETE is for this token. */
  predicate Deletes(pc: Proc, id: int) {
    match pc
    case Creds(SweepDelete(_, ids, _)) => ids != [] && ids[0] == id
    case Creds(DropUnlogged(_, i)) => i == id
    case Creds(Undo(_, i, _)) => i == id
    case Creds(UndoCommit(_, i, _)) => i == id
    case Revoke(_, r) => r.id == id
    case Rotate(CleanupRoot(_, i)) => i == id
    case Rotate(RevokeOld(i, _)) => i == id
    case _ => false
  }

  lemma SweepDeletes(s: State, p: Pid, auth: Auth, ids: seq<int>, token: Option<int>, e: Event, id: int)
    requires id in s.aap.live && id !in SweepDeleteStep(s, p, auth, ids, token, e).aap.live
    ensures ids != [] && ids[0] == id
  {
    hide MayDelete;
  }

  lemma SweepListDeletesNone(s: State, p: Pid, auth: Auth, description: string, token: Option<int>, e: Event)
    ensures SweepListStep(s, p, auth, description, token, e).aap == s.aap
  {
    hide Works; hide Truthful; hide IdsWithDescription;
  }

  lemma MintDeletesNone(s: State, p: Pid, q: Request, e: Event)
    ensures s.aap.live <= AwaitMintStep(s, p, q, e).aap.live
  {
    hide NewClient; hide MintDescription; hide Creates;
  }

  lemma CredsDeletes(s: State, p: Pid, c: CredsPc, e: Event, id: int)
    requires id in s.aap.live && id !in CredsStep(s, p, c, e).aap.live
    ensures Deletes(Creds(c), id)
  {
    hide ReadConfigStep; hide ResolveAppStep; hide ResolveUserStep; hide SweepListStep; hide SweepDeleteStep;
    hide AwaitMintStep; hide PutWalStep; hide DropUnloggedStep; hide GuardAppStep; hide GuardUserStep;
    hide CheckContextStep; hide UndoStep; hide UndoWalStep; hide CommitStep; hide UndoCommitStep; hide RespondStep;
    match c
    case Mint(q) => MintDeletesNone(s, p, q, e);
    case SweepList(auth, description, _, token) => SweepListDeletesNone(s, p, auth, description, token, e);
    case SweepDelete(auth, ids, token) => SweepDeletes(s, p, auth, ids, token, e, id);
    case DropUnlogged(q, i) => UndoDeletes(s, p, q, i, 0, e, id);
    case Undo(q, i, w) => UndoDeletes(s, p, q, i, w, e, id);
    case UndoCommit(q, i, w) => UndoDeletes(s, p, q, i, w, e, id);
    case _ => if AsksOnly(c) { AskingDeletesNone(s, p, c, e); } else { RecordingDeletesNone(s, p, c, e); }
  }

  lemma UndoDeletes(s: State, p: Pid, q: Request, i: int, w: nat, e: Event, id: int)
    requires id in s.aap.live
    ensures id !in DropUnloggedStep(s, p, q, i, e).aap.live ==> id == i
    ensures id !in UndoStep(s, p, q, i, w, e).aap.live ==> id == i
    ensures id !in UndoCommitStep(s, p, q, i, w, e).aap.live ==> id == i
  {
    hide NewClient; hide MayDelete;
  }

  predicate AsksOnly(c: CredsPc) { c.ReadConfig? || c.ResolveApp? || c.ResolveUser? || c.GuardApp? || c.GuardUser? }

  lemma AskingDeletesNone(s: State, p: Pid, c: CredsPc, e: Event)
    requires AsksOnly(c)
    ensures CredsStep(s, p, c, e).aap == s.aap
  {
    hide NewClient; hide Works; hide ResolveId; hide AfterConfig; hide AfterApp; hide AfterGuardApp; hide SweepListStep;
    hide SweepDeleteStep; hide AwaitMintStep; hide PutWalStep; hide DropUnloggedStep; hide CheckContextStep;
    hide UndoStep; hide UndoWalStep; hide CommitStep; hide UndoCommitStep; hide RespondStep;
  }

  lemma RecordingDeletesNone(s: State, p: Pid, c: CredsPc, e: Event)
    requires c.PutWal? || c.CheckContext? || c.UndoWal? || c.Commit? || c.Respond?
    ensures CredsStep(s, p, c, e).aap == s.aap
  {
    hide AfterWal; hide SweepListStep; hide SweepDeleteStep; hide AwaitMintStep; hide DropUnloggedStep; hide UndoStep;
    hide UndoCommitStep; hide ReadConfigStep; hide ResolveAppStep; hide ResolveUserStep; hide GuardAppStep;
    hide GuardUserStep;
  }

  lemma RevokeDeletes(s: State, p: Pid, src: Source, r: RevokePc, e: Event, id: int)
    requires id in s.aap.live && id !in RevokeStep(s, p, src, r, e).aap.live
    ensures Deletes(Revoke(src, r), id)
  {
    hide MayDelete; hide BySnapshotStep; hide CheckCacheStep; hide AwaitLockStep; hide LoadClientStep;
    hide StoreClientStep; hide ByCurrentStep; hide RevokedStep;
    match r
    case BySnapshot(_, snapshot) => SnapshotDeletes(s, p, src, r.id, snapshot, e, id);
    case ByCurrent(_, since, k) => FallbackDeletes(s, p, src, r.id, since, k, e, id);
    case _ => FetchingDeletesNone(s, p, src, r, e);
  }

  lemma SnapshotDeletes(s: State, p: Pid, src: Source, i: int, snapshot: Option<AapClient>, e: Event, id: int)
    requires id in s.aap.live
    ensures id !in BySnapshotStep(s, p, src, i, snapshot, e).aap.live ==> id == i
  {
    hide MayDelete;
  }

  lemma FallbackDeletes(s: State, p: Pid, src: Source, i: int, since: nat, k: Cached, e: Event, id: int)
    requires id in s.aap.live
    ensures id !in ByCurrentStep(s, p, src, i, since, k, e).aap.live ==> id == i
  {
    hide MayDelete;
  }

  lemma FetchingDeletesNone(s: State, p: Pid, src: Source, r: RevokePc, e: Event)
    requires !r.BySnapshot? && !r.ByCurrent?
    ensures RevokeStep(s, p, src, r, e).aap == s.aap
  {
    hide NewClient; hide BySnapshotStep; hide ByCurrentStep;
  }

  lemma RotateDeletes(s: State, p: Pid, t: RotatePc, e: Event, id: int)
    requires id in s.aap.live && id !in RotateStep(s, p, t, e).aap.live
    ensures Deletes(Rotate(t), id)
  {
    hide LoadRootStep; hide MintRootStep; hide VerifyRootStep; hide PutRootStep; hide CleanupRootStep;
    hide ResetRootStep; hide RevokeOldStep; hide RecordOldStep;
    if t.MintRoot? { MintRootDeletesNone(s, p, t.config, e); }
    else if t.CleanupRoot? { CleanupDeletes(s, p, t.config, t.id, e, id); }
    else if t.RevokeOld? { RevokeOldDeletes(s, p, t.oldId, t.next, e, id); }
    else { StoringDeletesNone(s, p, t, e); }
  }

  lemma MintRootDeletesNone(s: State, p: Pid, config: Config, e: Event)
    ensures s.aap.live <= MintRootStep(s, p, config, e).aap.live
  {
    hide NewClient; hide Creates;
  }

  lemma CleanupDeletes(s: State, p: Pid, config: Config, i: int, e: Event, id: int)
    requires id in s.aap.live
    ensures id !in CleanupRootStep(s, p, config, i, e).aap.live ==> id == i
  {
    hide NewClient; hide MayDelete;
  }

  lemma RevokeOldDeletes(s: State, p: Pid, oldId: int, next: Config, e: Event, id: int)
    requires id in s.aap.live
    ensures id !in RevokeOldStep(s, p, oldId, next, e).aap.live ==> id == oldId
  {
    hide NewClient; hide MayDelete;
  }

  lemma StoringDeletesNone(s: State, p: Pid, t: RotatePc, e: Event)
    requires !t.MintRoot? && !t.CleanupRoot? && !t.RevokeOld?
    ensures RotateStep(s, p, t, e).aap == s.aap
  {
    hide NewClient; hide Works; hide MintRootStep; hide CleanupRootStep; hide RevokeOldStep;
  }

  lemma WriteDeletesNone(s: State, p: Pid, w: WritePc, e: Event)
    ensures WriteStep(s, p, w, e).aap == s.aap
  {
    hide NewClient; hide Works; hide Accept;
  }

  lemma StepDeletes(s: State, a: Action, id: int)
    requires id in s.aap.live && id !in Next(s, a).aap.live
    ensures a.Act? && a.p in s.procs && Deletes(s.procs[a.p], id)
  {
    hide CredsStep; hide RevokeStep; hide RotateStep; hide WriteStep; hide TargetOf; hide Deletes; hide AfterCrash;
    if a.Act? && a.p in s.procs {
      match s.procs[a.p]
      case Creds(c) => CredsDeletes(s, a.p, c, a.e, id);
      case Revoke(src, r) => RevokeDeletes(s, a.p, src, r, a.e, id);
      case Rotate(t) => RotateDeletes(s, a.p, t, a.e, id);
      case Write(w) => WriteDeletesNone(s, a.p, w, a.e);
    }
  }

  // ----- A request that keeps its token to itself

  /** The request answers for this token, or has it under its WAL entry, from the mint to the lease. */
  predicate Keeps(pc: Proc, id: int) {
    match pc
    case Creds(PutWal(_, i)) => i == id
    case Creds(GuardApp(q, i, _)) => i == id && InTime(q)
    case Creds(GuardUser(q, i, _)) => i == id && InTime(q)
    case Creds(CheckContext(q, i, _)) => i == id && InTime(q)
    case Creds(Commit(q, i, _)) => i == id && InTime(q)
    case Creds(Respond(lease)) => lease.grant.id == id && InTime(lease.request)
    case _ => false
  }

  ghost predicate HeldBy(s: State, p: Pid, id: int) {
    && id in s.aap.tokens && id in s.ledger
    && (s.ledger[id] == InFlight(p)
        || (s.ledger[id].InWal? && s.ledger[id].holder == Some(p))
        || s.ledger[id] == Gone(Some(p)))
  }

  lemma KeeperHolds(s: State, p: Pid, id: int)
    requires Inv(s) && p in s.procs && Keeps(s.procs[p], id)
    ensures HeldBy(s, p, id)
    ensures s.ledger[id].InWal? ==> SpanOf(s.procs[p]).Some? && s.ledger[id].w == SpanOf(s.procs[p]).value.w
    ensures SpanOf(s.procs[p]).Some? ==> InTime(SpanOf(s.procs[p]).value.q)
  {
    hide InTime; hide WellFormed; hide NewClient; hide ServerOk; hide WalOk; hide LeasesOk; hide RootOk; hide LedgerOk;
    hide LocksOk; hide CacheOk;
    assert ProcOk(s, p, s.procs[p]);
  }

  /** Whoever else is about to delete a token, unless it is a revocation, holds it itself. */
  lemma DeleterHolds(s: State, q: Pid, id: int)
    requires Inv(s) && q in s.procs && Deletes(s.procs[q], id) && !s.procs[q].Revoke?
    ensures HeldBy(s, q, id)
  {
    hide WellFormed; hide NewClient; hide ServerOk; hide WalOk; hide LeasesOk; hide RootOk; hide LedgerOk; hide LocksOk;
    hide CacheOk;
    assert ProcOk(s, q, s.procs[q]);
    if s.procs[q].Creds? && s.procs[q].c.SweepDelete? { assert s.procs[q].c.ids[0] in s.procs[q].c.ids; }
  }

  /** The token is live and no revocation in flight is aimed at it. */
  predicate Untouched(s: State, id: int) {
    id in s.aap.live && forall q :: q in s.procs && s.procs[q].Revoke? ==> s.procs[q].r.id != id
  }

  ghost predicate KeptAlive(s: State) {
    forall p, id :: p in s.procs && Keeps(s.procs[p], id) ==> Untouched(s, id)
  }

  lemma KeeperStaysLive(s: State, a: Action, p: Pid, id: int)
    requires Inv(s) && KeptAlive(s) && p in s.procs && Keeps(s.procs[p], id)
    ensures id in Next(s, a).aap.live
  {
    hide Inv; hide Next; hide InTime; hide HeldBy;
    assert Untouched(s, id);
    if id !in Next(s, a).aap.live {
      StepDeletes(s, a, id);
      DeleterHolds(s, a.p, id);
      KeeperHolds(s, p, id);
      OneHolder(s, p, a.p, id);
    }
  }

  lemma OneHolder(s: State, p: Pid, q: Pid, id: int)
    requires HeldBy(s, p, id) && HeldBy(s, q, id)
    ensures p == q
  {
  }

  // ----- No revocation turns to it

  lemma RevokeKeepsTarget(s: State, p: Pid, src: Source, r: RevokePc, e: Event)
    requires p in s.procs && s.procs[p] == Revoke(src, r)
    ensures var t := RevokeStep(s, p, src, r, e); p in t.procs ==> t.procs[p].Revoke? && t.procs[p].r.id == r.id
  {
    hide NewClient; hide Delete; hide DeleteConfirmed;
  }

  /** A revocation in flight was aimed at its token before, or begins now at the token its record names. */
  lemma RevocationFollows(s: State, a: Action, q: Pid)
    requires Inv(s) && q in Next(s, a).procs && Next(s, a).procs[q].Revoke?
    ensures var id := Next(s, a).procs[q].r.id;
            || (q in s.procs && s.procs[q].Revoke? && s.procs[q].r.id == id)
            || (&& a.Act? && a.e.Begin? && a.e.op.Revoking? && Recorded(s, a.e.op.src)
                && GrantOf(s, a.e.op.src).id == id)
  {
    hide Inv; hide CredsStep; hide RevokeStep; hide RotateStep; hide WriteStep; hide Grows; hide TargetOf;
    hide AfterCrash; hide NewClient; hide WellFormed;
    if a.Act? {
      StepMovesOne(s, a.p, a.e);
      if q == a.p && q in s.procs {
        match s.procs[q]
        case Creds(c) => CredsGrows(s, q, c, a.e);
        case Revoke(src, r) => RevokeKeepsTarget(s, q, src, r, a.e);
        case Rotate(t) => RootOpsStayRootOps(s, q, t, ResetClient, a.e);
        case Write(w) => RootOpsStayRootOps(s, q, LoadRoot, w, a.e);
      } else if q == a.p {
        assert a.e.Begin? && a.e.op.Revoking?;
        TargetIsGrant(s, a.e.op.src);
      }
    }
  }

  /** The only record that can name a kept token is its request's own entry, which is too young. */
  lemma RecordIsOwn(x: Timed, a: Action, time: int, p: Pid, id: int)
    requires TimedInv(x) && OnTime(x, time) && OldEnough(x, a, time) && p in x.s.procs && Keeps(x.s.procs[p], id)
    requires a.Act? && a.e.Begin? && a.e.op.Revoking? && Recorded(x.s, a.e.op.src)
    ensures GrantOf(x.s, a.e.op.src).id != id
  {
    hide Inv; hide InTime; hide HeldBy;
    KeeperHolds(x.s, p, id);
    Agrees(x.s, id);
    assert HeldBy(x.s, p, id);
    if GrantOf(x.s, a.e.op.src).id == id {
      HeldNotLeased(x.s, p, id);
      assert a.e.op.src == FromWal(SpanOf(x.s.procs[p]).value.w);
      NoRollbackYet(x, p, p, time);
    }
  }

  lemma HeldNotLeased(s: State, p: Pid, id: int)
    requires HeldBy(s, p, id)
    ensures id in s.ledger && !s.ledger[id].InLease?
  {
  }

  // ----- A kept token was kept before, or is new

  lemma NewlyKept(s: State, p: Pid, c: CredsPc, e: Event, id: int)
    requires p in s.procs && s.procs[p] == Creds(c) && p in CredsStep(s, p, c, e).procs
        && Keeps(CredsStep(s, p, c, e).procs[p], id)
    requires !c.Mint? && !c.SweepList? && !c.SweepDelete?
    ensures Keeps(Creds(c), id)
  {
    hide InTime; hide ReadConfigStep; hide ResolveAppStep; hide ResolveUserStep; hide SweepListStep;
    hide SweepDeleteStep; hide AwaitMintStep; hide PutWalStep; hide DropUnloggedStep; hide GuardAppStep;
    hide GuardUserStep; hide CheckContextStep; hide UndoStep; hide UndoWalStep; hide CommitStep; hide UndoCommitStep;
    hide RespondStep; hide Keeps;
    if c.GuardApp? || c.GuardUser? || c.CheckContext? || c.Commit? { GuardsKeepOn(s, p, c, e, id); }
    else if c.PutWal? || c.Respond? { RecordsKeepOn(s, p, c, e, id); }
    else { OthersKeepNone(s, p, c, e, id); }
  }

  lemma GuardsKeepOn(s: State, p: Pid, c: CredsPc, e: Event, id: int)
    requires p in s.procs && s.procs[p] == Creds(c) && p in CredsStep(s, p, c, e).procs
        && Keeps(CredsStep(s, p, c, e).procs[p], id)
    requires c.GuardApp? || c.GuardUser? || c.CheckContext? || c.Commit?
    ensures Keeps(Creds(c), id)
  {
    hide InTime; hide NewClient; hide Works; hide ReadConfigStep; hide ResolveAppStep; hide ResolveUserStep;
    hide SweepListStep; hide SweepDeleteStep; hide AwaitMintStep; hide PutWalStep; hide DropUnloggedStep; hide UndoStep;
    hide UndoWalStep; hide UndoCommitStep; hide RespondStep;
  }

  lemma RecordsKeepOn(s: State, p: Pid, c: CredsPc, e: Event, id: int)
    requires p in s.procs && s.procs[p] == Creds(c) && p in CredsStep(s, p, c, e).procs
        && Keeps(CredsStep(s, p, c, e).procs[p], id)
    requires c.PutWal? || c.Respond?
    ensures Keeps(Creds(c), id)
  {
    hide InTime; hide ReadConfigStep; hide ResolveAppStep; hide ResolveUserStep; hide SweepListStep;
    hide SweepDeleteStep; hide AwaitMintStep; hide DropUnloggedStep; hide GuardAppStep; hide GuardUserStep;
    hide CheckContextStep; hide UndoStep; hide UndoWalStep; hide CommitStep; hide UndoCommitStep;
  }

  lemma OthersKeepNone(s: State, p: Pid, c: CredsPc, e: Event, id: int)
    requires p in s.procs && s.procs[p] == Creds(c) && p in CredsStep(s, p, c, e).procs
    requires c.ReadConfig? || c.ResolveApp? || c.ResolveUser? || c.DropUnlogged? || c.Undo? || c.UndoWal?
        || c.UndoCommit?
    ensures !Keeps(CredsStep(s, p, c, e).procs[p], id)
  {
    hide InTime; hide NewClient; hide Delete; hide DeleteConfirmed; hide ResolveId; hide SweepListStep;
    hide SweepDeleteStep; hide AwaitMintStep; hide PutWalStep; hide GuardAppStep; hide GuardUserStep;
    hide CheckContextStep; hide CommitStep; hide RespondStep;
  }

  lemma MintKeepsNew(s: State, p: Pid, q: Request, e: Event, id: int)
    requires p in s.procs && s.procs[p] == Creds(Mint(q)) && p in AwaitMintStep(s, p, q, e).procs
    requires Keeps(AwaitMintStep(s, p, q, e).procs[p], id)
    ensures id == s.aap.nextId && id in AwaitMintStep(s, p, q, e).aap.live
  {
    hide InTime; hide NewClient; hide MintDescription; hide IdentityOf;
  }

  lemma SweepsKeepNone(s: State, p: Pid, auth: Auth, description: string, ids: seq<int>, token: Option<int>,
      e: Event, id: int)
    requires p in s.procs && s.procs[p].Creds? && (s.procs[p].c.SweepList? || s.procs[p].c.SweepDelete?)
    ensures p in SweepListStep(s, p, auth, description, token, e).procs ==>
              !Keeps(SweepListStep(s, p, auth, description, token, e).procs[p], id)
    ensures p in SweepDeleteStep(s, p, auth, ids, token, e).procs ==>
              !Keeps(SweepDeleteStep(s, p, auth, ids, token, e).procs[p], id)
  {
    hide Delete; hide DeleteConfirmed; hide Works; hide Truthful; hide IdsWithDescription; hide AbandonAny;
  }

  /** Only a creds request keeps a token, and nobody else moves it. */
  lemma KeeperWasThere(s: State, a: Action, p: Pid, id: int)
    requires Inv(s) && p in Next(s, a).procs && Keeps(Next(s, a).procs[p], id)
    ensures p in s.procs && s.procs[p].Creds?
    ensures Next(s, a).procs[p] != s.procs[p] ==> a.Act? && a.p == p && Next(s, a) == CredsStep(s, p, s.procs[p].c, a.e)
  {
    hide Inv; hide CredsStep; hide RevokeStep; hide RotateStep; hide WriteStep; hide Grows; hide TargetOf;
    hide AfterCrash; hide InTime;
    if a.Act? { StepMovesOne(s, a.p, a.e); }
    if p !in s.procs {
      JustStarted(s, a, p);
    } else if a.Act? {
      MintingStaysMinting(s, a, p);
    }
  }

  /** A token that is kept after a step, and was not kept before it, has just been minted. */
  lemma KeptOrNew(s: State, a: Action, p: Pid, id: int)
    requires Inv(s) && p in Next(s, a).procs && Keeps(Next(s, a).procs[p], id)
    ensures p in s.procs
    ensures Keeps(s.procs[p], id) || (id == s.aap.nextId && id in Next(s, a).aap.live && a.Act? && a.p in s.procs)
  {
    hide Inv; hide Next; hide Keeps; hide CredsStep;
    KeeperWasThere(s, a, p, id);
    if Next(s, a).procs[p] != s.procs[p] {
      match s.procs[p].c
      case Mint(q) => NewIsKept(s, p, q, a.e, id);
      case SweepList(auth, description, _, token) => NoneKept(s, p, a.e, id);
      case SweepDelete(auth, ids, token) => NoneKept(s, p, a.e, id);
      case _ => NewlyKept(s, p, s.procs[p].c, a.e, id);
    }
  }

  lemma NewIsKept(s: State, p: Pid, q: Request, e: Event, id: int)
    requires p in s.procs && s.procs[p] == Creds(Mint(q)) && p in CredsStep(s, p, Mint(q), e).procs
    requires Keeps(CredsStep(s, p, Mint(q), e).procs[p], id)
    ensures id == s.aap.nextId && id in CredsStep(s, p, Mint(q), e).aap.live
  {
    hide AwaitMintStep; hide Keeps;
    MintKeepsNew(s, p, q, e, id);
  }

  lemma NoneKept(s: State, p: Pid, e: Event, id: int)
    requires p in s.procs && s.procs[p].Creds? && (s.procs[p].c.SweepList? || s.procs[p].c.SweepDelete?)
    requires p in CredsStep(s, p, s.procs[p].c, e).procs
    ensures !Keeps(CredsStep(s, p, s.procs[p].c, e).procs[p], id)
  {
    hide SweepListStep; hide SweepDeleteStep; hide Keeps;
    match s.procs[p].c
    case SweepList(auth, description, _, token) => SweepsKeepNone(s, p, auth, description, [], token, e, id);
    case SweepDelete(auth, ids, token) => SweepsKeepNone(s, p, auth, "", ids, token, e, id);
  }

  /** No revocation is ever aimed at a token that does not exist yet. */
  lemma TargetsExist(s: State, q: Pid)
    requires Inv(s) && q in s.procs && s.procs[q].Revoke?
    ensures s.procs[q].r.id in s.aap.tokens
  {
    hide SharedOk;
    assert ProcOk(s, q, s.procs[q]);
  }

  lemma TickKeepsAlive(x: Timed, a: Action, time: int)
    requires TimedInv(x) && OnTime(x, time) && OldEnough(x, a, time) && KeptAlive(x.s)
    ensures KeptAlive(Tick(x, a, time).s)
  {
    hide Inv; hide Next; hide Keeps; hide OldEnough; hide OnTime;
    forall p, id | p in Next(x.s, a).procs && Keeps(Next(x.s, a).procs[p], id)
      ensures Untouched(Next(x.s, a), id)
    {
      KeptOrNew(x.s, a, p, id);
      NextIdIsNew(x.s);
      if Keeps(x.s.procs[p], id) { KeeperStaysLive(x.s, a, p, id); assert Untouched(x.s, id); }
      forall q | q in Next(x.s, a).procs && Next(x.s, a).procs[q].Revoke?
        ensures Next(x.s, a).procs[q].r.id != id
      {
        NotAimedAtKept(x, a, time, p, id, q);
      }
    }
  }

  lemma NotAimedAtKept(x: Timed, a: Action, time: int, p: Pid, id: int, q: Pid)
    requires TimedInv(x) && OnTime(x, time) && OldEnough(x, a, time) && p in x.s.procs
    requires if Keeps(x.s.procs[p], id) then Untouched(x.s, id) else id == x.s.aap.nextId && a.Act? && a.p in x.s.procs
    requires q in Next(x.s, a).procs && Next(x.s, a).procs[q].Revoke?
    ensures Next(x.s, a).procs[q].r.id != id
  {
    hide Inv; hide Next; hide Keeps; hide OldEnough; hide OnTime; hide TargetOf;
    RevocationFollows(x.s, a, q);
    NextIdIsNew(x.s);
    if q in x.s.procs && x.s.procs[q].Revoke? { TargetsExist(x.s, q); }
    if a.Act? && a.e.Begin? && a.e.op.Revoking? && Recorded(x.s, a.e.op.src) {
      TargetIsGrant(x.s, a.e.op.src);
      if Keeps(x.s.procs[p], id) { RecordIsOwn(x, a, time, p, id); }
    }
  }

  lemma {:induction false} RunKeepsAlive(x: Timed, steps: seq<(Action, int)>)
    requires TimedInv(x) && PossibleTimes(x, steps) && KeptAlive(x.s)
    ensures KeptAlive(TimedRun(x, steps).s)
    decreases |steps|
  {
    hide TimedInv; hide Tick; hide OnTime; hide OldEnough; hide KeptAlive;
    if steps != [] {
      TickKeeps(x, steps[0].0, steps[0].1);
      TickKeepsAlive(x, steps[0].0, steps[0].1);
      RunKeepsAlive(Tick(x, steps[0].0, steps[0].1), steps[1..]);
    }
  }

  /** In every timed run: from the answered mint until the lease is registered, the token of a request whose
      guards and storage calls fit into the minimum age is live, whatever rollbacks, revocations, sweeps and
      rotations run in between. */
  lemma MintsInTimeStayLive(x: Timed, p: Pid, id: int)
    requires TimedReachable(x) && p in x.s.procs && Keeps(x.s.procs[p], id)
    ensures id in x.s.aap.live
    ensures forall q :: q in x.s.procs && x.s.procs[q].Revoke? ==> x.s.procs[q].r.id != id
  {
    hide Inv; hide TimedRun; hide PossibleTimes; hide Keeps;
    var x0: Timed, steps: seq<(Action, int)> :| FreshMount(x0) && PossibleTimes(x0, steps) && x == TimedRun(x0, steps);
    assert TimedInv(x0) by { InitialInv(x0.s); }
    RunKeepsAlive(x0, steps);
    assert Untouched(x.s, id);
  }

  // ----- What a role's leases can rely on

  /** The most time the guards of a role can take under a configuration. */
  function RoleGuardTime(role: Role, config: Config): int {
    (if role.application != "" then CallLimit(config) else 0) + (if role.username != "" then CallLimit(config) else 0)
  }

  /** Every lease that Vault registers for this role under this configuration is for a live token. */
  ghost predicate LeasesAreLive(env: Env, config: Config, role: Role) {
    forall x, p :: TimedReachable(x) && x.s.env == env && HandsOut(x.s, p, config, role) ==> RegistersLive(x.s, p)
  }

  /** The lease registered by the request's last step is for a live token. */
  predicate RegistersLive(s: State, p: Pid) {
    var t := Next(s, Act(p, Succeeds));
    s.nextLease in t.leases && t.leases[s.nextLease].grant.id in t.aap.live
  }

  lemma Registers(s: State, p: Pid, config: Config, role: Role)
    requires HandsOut(s, p, config, role)
    ensures var t := Next(s, Act(p, Succeeds));
            t.leases == s.leases[s.nextLease := s.procs[p].c.lease] && t.aap == s.aap
  {
    hide RevokeStep; hide RotateStep; hide WriteStep; hide Start;
  }

  /** The WAL entry is deleted, and the lease about to be registered, for a request for this role that read
      this configuration. */
  predicate HandsOut(s: State, p: Pid, config: Config, role: Role) {
    && p in s.procs && s.procs[p].Creds? && s.procs[p].c.Respond?
    && s.procs[p].c.lease.request.role == role && s.procs[p].c.lease.request.config == config
  }

  function Actions(steps: seq<(Action, int)>): seq<Action>
    decreases |steps|
  {
    if steps == [] then [] else [steps[0].0] + Actions(steps[1..])
  }

  /** Forgetting the clock, a timed run is a run. */
  lemma {:induction false} TimedRunIsRun(x: Timed, steps: seq<(Action, int)>)
    ensures TimedRun(x, steps).s == Run(x.s, Actions(steps))
    decreases |steps|
  {
    hide Next;
    if steps != [] {
      TimedRunIsRun(Tick(x, steps[0].0, steps[0].1), steps[1..]);
      RunSplits(x.s, Actions(steps), 1);
      assert Actions(steps)[..1] == [steps[0].0] && Actions(steps)[1..] == Actions(steps[1..]);
      assert Run(x.s, [steps[0].0]) == Next(x.s, steps[0].0) by { assert [steps[0].0][..0] == []; }
    }
  }

  /** A request asks for no guard that its role does not name. */
  lemma GuardsAreTheRoles(x: Timed, p: Pid, config: Config, role: Role)
    requires TimedReachable(x) && HandsOut(x.s, p, config, role)
    ensures GuardTime(x.s.procs[p].c.lease.request) <= RoleGuardTime(role, config)
  {
    hide TimedRun; hide PossibleTimes; hide Run; hide LookedUp;
    var x0: Timed, steps: seq<(Action, int)> :| FreshMount(x0) && PossibleTimes(x0, steps) && x == TimedRun(x0, steps);
    TimedRunIsRun(x0, steps);
    EveryRunIsGuarded(x0.s, Actions(steps));
    RespondIsGuarded(x.s.aap, x0.s, Actions(steps), x.s.procs[p].c);
  }

  /** While the guards of a role and two storage calls fit into the minimum age, every lease for it is for a
      live token. */
  lemma InTimeLeasesAreLive(env: Env, config: Config, role: Role)
    requires RoleGuardTime(role, config) + 2 * STORAGE_LIMIT < MIN_AGE
    ensures LeasesAreLive(env, config, role)
  {
    hide TimedReachable; hide Next;
    forall x, p | TimedReachable(x) && x.s.env == env && HandsOut(x.s, p, config, role)
      ensures RegistersLive(x.s, p)
    {
      GuardsAreTheRoles(x, p, config, role);
      MintsInTimeStayLive(x, p, x.s.procs[p].c.lease.grant.id);
      Registers(x.s, p, config, role);
    }
  }
}
