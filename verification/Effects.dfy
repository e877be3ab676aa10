/** What a step cannot do: minted tokens never change, and only a rotation's or an operator's write
    changes the configuration. */
module Effects {
  import opened Wrappers
  import opened Client
  import opened ConfigWrite
  import opened Marker
  import opened Aap
  import opened Roles
  import opened Protocol
  import opened Invariant
  import opened Lifecycle

  /** Whatever happens, a minted token keeps its secret, its owner and its description. */
  ghost predicate KeepsTokens(a: Server, b: Server) {
    forall id :: id in a.tokens ==> id in b.tokens && b.tokens[id] == a.tokens[id]
  }

  /** Nothing about AAP changes but which tokens are live. */
  ghost predicate OnlyLive(s: State, t: State) {
    t.env == s.env && t.aap == s.aap.(live := t.aap.live)
  }

  /** Only operation p moves, and it goes on with what it does: a creds request or a revocation. */
  ghost predicate ActorOnly(s: State, t: State, p: Pid, creds: bool) {
    && (forall q :: q != p ==> (q in s.procs <==> q in t.procs) && (q in s.procs ==> t.procs[q] == s.procs[q]))
    && (p in t.procs ==> if creds then t.procs[p].Creds? else t.procs[p].Revoke?)
  }

  /** Operation p moves on; of AAP and the configuration, only which tokens are live may change. */
  ghost predicate Minor(s: State, t: State, p: Pid, creds: bool) {
    OnlyLive(s, t) && t.config == s.config && ActorOnly(s, t, p, creds)
  }

  /** No config write appears, and a rotation that holds a new token minted it just now or held it before. */
  ghost predicate RootOpsMove(s: State, t: State) {
    forall q :: q in t.procs ==>
      && (t.procs[q].Write? ==> q in s.procs && s.procs[q].Write?)
      && (HoldsNew(t.procs[q]) ==>
            && q in s.procs && s.procs[q].Rotate?
            && ((HoldsNew(s.procs[q]) && s.procs[q].t.next == t.procs[q].t.next)
                || (s.procs[q].t.MintRoot? && t.procs[q].t.next.tokenId == s.aap.nextId && s.aap.nextId in t.aap.live)))
  }

  ghost predicate HoldsNew(pc: Proc) { pc.Rotate? && (pc.t.VerifyRoot? || pc.t.PutRoot?) }

  /** At most one token, with a secret nobody had, is minted. */
  ghost predicate Grows(a: Server, b: Server) {
    && b == a.(live := b.live, nextId := b.nextId, secrets := b.secrets, tokens := b.tokens)
    && KeepsTokens(a, b)
    && (forall x :: x in a.secrets ==> x in b.secrets && b.secrets[x] == a.secrets[x])
    && (forall x :: x in b.secrets && x !in a.secrets ==> x !in a.operators)
  }

  lemma PostGrows(a: Server, auth: Auth, description: string, marker: Option<string>, reply: PostReply)
    requires a.nextId !in a.tokens
    ensures Grows(a, Post(a, auth, description, marker, reply))
  {
    hide IdentityOf;
  }

  lemma FinishKeepsTokens(s: State, p: Pid, token: Option<int>, cause: Cause)
    ensures Minor(s, FinishSweep(s, p, token, cause), p, true)
  {
  }

  lemma SweepListKeepsTokens(s: State, p: Pid, auth: Auth, description: string, token: Option<int>, e: Event)
    requires p in s.procs && s.procs[p].Creds?
    ensures Minor(s, SweepListStep(s, p, auth, description, token, e), p, true)
  {
    hide Works; hide Truthful; hide IdsWithDescription; hide FinishSweep;
    FinishKeepsTokens(s, p, token, SweepFailed);
    FinishKeepsTokens(s, p, token, SweepMissed);
  }

  lemma SweepDeleteKeepsTokens(s: State, p: Pid, auth: Auth, ids: seq<int>, token: Option<int>, e: Event)
    requires p in s.procs && s.procs[p].Creds?
    ensures Minor(s, SweepDeleteStep(s, p, auth, ids, token, e), p, true)
  {
    hide Delete; hide DeleteConfirmed; hide FinishSweep;
    if ids != [] && e.DeleteReplied? {
      var s1 := DeleteFrom(s, auth, ids[0], e.delete);
      FinishKeepsTokens(s1, p, token, SweepFailed);
      FinishKeepsTokens(s1, p, token, SweepMissed);
    }
  }

  /** A mint and its sweep leave the records alone. */
  ghost predicate KeepsRecords(s: State, t: State) {
    t == s.(aap := t.aap, ledger := t.ledger, procs := t.procs, markers := t.markers)
  }

  lemma FinishKeepsRecords(s: State, p: Pid, token: Option<int>, cause: Cause)
    ensures KeepsRecords(s, FinishSweep(s, p, token, cause))
  {
  }

  lemma SweepListKeepsRecords(s: State, p: Pid, auth: Auth, description: string, token: Option<int>, e: Event)
    ensures KeepsRecords(s, SweepListStep(s, p, auth, description, token, e))
  {
    hide Works; hide Truthful; hide IdsWithDescription; hide FinishSweep;
    FinishKeepsRecords(s, p, token, SweepFailed);
    FinishKeepsRecords(s, p, token, SweepMissed);
  }

  lemma SweepDeleteKeepsRecords(s: State, p: Pid, auth: Auth, ids: seq<int>, token: Option<int>, e: Event)
    ensures KeepsRecords(s, SweepDeleteStep(s, p, auth, ids, token, e))
  {
    hide Delete; hide DeleteConfirmed; hide FinishSweep;
    if e.DeleteReplied? && ids != [] {
      var s1 := DeleteFrom(s, auth, ids[0], e.delete);
      FinishKeepsRecords(s1, p, token, SweepFailed);
      FinishKeepsRecords(s1, p, token, SweepMissed);
    }
  }

  lemma MintKeepsRecords(s: State, p: Pid, q: Request, e: Event)
    ensures KeepsRecords(s, AwaitMintStep(s, p, q, e))
  {
    hide NewClient; hide MintDescription; hide Creates; hide Post;
  }

  lemma UndoKeepsTokens(s: State, p: Pid, c: CredsPc, e: Event)
    requires p in s.procs && s.procs[p].Creds?
    requires c.DropUnlogged? || c.Undo? || c.UndoWal? || c.UndoCommit? || c.Commit? || c.Respond?
    ensures Minor(s, CredsStep(s, p, c, e), p, true)
  {
    hide ReadConfigStep; hide ResolveAppStep; hide ResolveUserStep; hide AwaitMintStep; hide SweepListStep;
    hide SweepDeleteStep; hide PutWalStep; hide GuardAppStep; hide GuardUserStep; hide CheckContextStep;
    hide NewClient; hide Delete; hide DeleteConfirmed;
  }

  lemma ReadsKeepTokens(s: State, p: Pid, c: CredsPc, e: Event)
    requires p in s.procs && s.procs[p].Creds?
    requires c.ReadConfig? || c.ResolveApp? || c.ResolveUser? || c.PutWal?
    ensures Minor(s, CredsStep(s, p, c, e), p, true)
  {
    hide AwaitMintStep; hide SweepListStep; hide SweepDeleteStep; hide DropUnloggedStep; hide UndoStep;
    hide GuardAppStep; hide GuardUserStep; hide CheckContextStep; hide UndoWalStep; hide CommitStep;
    hide UndoCommitStep; hide RespondStep; hide NewClient; hide ResolveId; hide AfterConfig; hide AfterApp;
    hide AfterWal;
  }

  lemma GuardsKeepTokens(s: State, p: Pid, c: CredsPc, e: Event)
    requires p in s.procs && s.procs[p].Creds?
    requires c.GuardApp? || c.GuardUser? || c.CheckContext?
    ensures Minor(s, CredsStep(s, p, c, e), p, true)
  {
    hide AwaitMintStep; hide SweepListStep; hide SweepDeleteStep; hide DropUnloggedStep; hide UndoStep;
    hide ReadConfigStep; hide ResolveAppStep; hide ResolveUserStep; hide PutWalStep; hide UndoWalStep; hide CommitStep;
    hide UndoCommitStep; hide RespondStep; hide NewClient; hide Works; hide AfterGuardApp;
  }

  lemma MintKeepsTokens(s: State, p: Pid, q: Request, e: Event)
    requires Inv(s) && p in s.procs && s.procs[p].Creds?
    ensures AwaitMintStep(s, p, q, e).env == s.env && Grows(s.aap, AwaitMintStep(s, p, q, e).aap)
        && AwaitMintStep(s, p, q, e).config == s.config
    ensures ActorOnly(s, AwaitMintStep(s, p, q, e), p, true)
  {
    hide Inv; hide NewClient; hide AwaitMintStep; hide Post; hide Grows; hide MintDescription;
    NextIdIsNew(s);
    AapStaysOrGrows(s);
    MintKeepsRecords(s, p, q, e);
    MintMovesOne(s, p, q, e);
    if e.PostReplied? && NewClient(s.env, q.config).Ok? {
      PostGrows(s.aap, MintAuth(s.env, q), MintDescription(q.config.tokenDescriptionPrefix, q.role.description,
          e.requestId), Some(e.requestId), e.post);
    }
  }

  lemma MintMovesOne(s: State, p: Pid, q: Request, e: Event)
    requires p in s.procs && s.procs[p].Creds?
    ensures var t := AwaitMintStep(s, p, q, e);
            ActorOnly(s, t, p, true) &&
            (t.aap == s.aap || (e.PostReplied? && NewClient(s.env, q.config).Ok? &&
              t.aap == Post(s.aap, MintAuth(s.env, q), MintDescription(q.config.tokenDescriptionPrefix,
                  q.role.description, e.requestId), Some(e.requestId), e.post)))
  {
    hide NewClient; hide MintDescription; hide Creates; hide Post;
  }

  lemma AapStaysOrGrows(s: State)
    ensures Grows(s.aap, s.aap)
  {
  }

  lemma NextIdIsNew(s: State)
    requires Inv(s)
    ensures s.aap.nextId !in s.aap.tokens
  {
  }

  lemma ClientKeepsTokens(s: State, p: Pid, src: Source, r: RevokePc, e: Event)
    requires p in s.procs && s.procs[p].Revoke?
    requires r.CheckCache? || r.AwaitLock?
    ensures Minor(s, RevokeStep(s, p, src, r, e), p, false)
  {
    hide NewClient; hide BySnapshotStep; hide LoadClientStep; hide StoreClientStep; hide ByCurrentStep;
    hide RevokedStep;
  }

  lemma LoadKeepsTokens(s: State, p: Pid, src: Source, r: RevokePc, e: Event)
    requires p in s.procs && s.procs[p].Revoke?
    requires r.LoadClient? || r.StoreClient?
    ensures Minor(s, RevokeStep(s, p, src, r, e), p, false)
  {
    hide NewClient; hide BySnapshotStep; hide CheckCacheStep; hide AwaitLockStep; hide ByCurrentStep; hide RevokedStep;
  }

  lemma RevokeKeepsTokens(s: State, p: Pid, src: Source, r: RevokePc, e: Event)
    requires p in s.procs && s.procs[p].Revoke?
    requires r.BySnapshot? || r.ByCurrent? || r.Revoked?
    ensures Minor(s, RevokeStep(s, p, src, r, e), p, false)
  {
    hide CheckCacheStep; hide AwaitLockStep; hide LoadClientStep; hide StoreClientStep;
    hide Delete; hide DeleteConfirmed;
  }

  lemma MintRootKeepsTokens(s: State, p: Pid, config: Config, e: Event)
    requires Inv(s)
    ensures MintRootStep(s, p, config, e).env == s.env && Grows(s.aap, MintRootStep(s, p, config, e).aap)
        && MintRootStep(s, p, config, e).config == s.config
  {
    hide Inv; hide NewClient; hide Post; hide Creates; hide Grows;
    NextIdIsNew(s);
    AapStaysOrGrows(s);
    if NewClient(s.env, config).Ok? && e.PostReplied? {
      PostGrows(s.aap, AdminAuth(s.env, config), ROOT_DESCRIPTION, None, e.post);
    }
  }

  lemma RotateKeepsTokens(s: State, p: Pid, t: RotatePc, e: Event)
    requires !t.MintRoot? && !t.PutRoot?
    ensures OnlyLive(s, RotateStep(s, p, t, e)) && RotateStep(s, p, t, e).config == s.config
  {
    hide NewClient; hide Delete; hide DeleteConfirmed; hide Works; hide MintRootStep; hide PutRootStep;
  }

  lemma PutRootKeepsTokens(s: State, p: Pid, config: Config, next: Config, e: Event)
    ensures OnlyLive(s, PutRootStep(s, p, config, next, e))
  {
  }

  lemma LiveOnlyGrows(s: State, t: State)
    ensures OnlyLive(s, t) ==> t.env == s.env && Grows(s.aap, t.aap)
  {
  }

  lemma CredsGrows(s: State, p: Pid, c: CredsPc, e: Event)
    requires Inv(s) && p in s.procs && s.procs[p].Creds?
    ensures CredsStep(s, p, c, e).env == s.env && Grows(s.aap, CredsStep(s, p, c, e).aap)
        && CredsStep(s, p, c, e).config == s.config && ActorOnly(s, CredsStep(s, p, c, e), p, true)
  {
    hide Inv; hide Grows; hide OnlyLive; hide ActorOnly; hide ReadConfigStep; hide ResolveAppStep; hide ResolveUserStep;
    hide AwaitMintStep; hide SweepListStep; hide SweepDeleteStep; hide PutWalStep; hide DropUnloggedStep;
    hide GuardAppStep; hide GuardUserStep; hide CheckContextStep; hide UndoStep; hide UndoWalStep; hide CommitStep;
    hide UndoCommitStep; hide RespondStep;
    LiveOnlyGrows(s, CredsStep(s, p, c, e));
    match c
    case Mint(q) => MintKeepsTokens(s, p, q, e);
    case SweepList(auth, description, _, token) => SweepListKeepsTokens(s, p, auth, description, token, e);
    case SweepDelete(auth, ids, token) => SweepDeleteKeepsTokens(s, p, auth, ids, token, e);
    case _ =>
      if c.DropUnlogged? || c.Undo? || c.UndoWal? || c.UndoCommit? || c.Commit? || c.Respond? { UndoKeepsTokens(s, p, c, e); }
      else if c.GuardApp? || c.GuardUser? || c.CheckContext? { GuardsKeepTokens(s, p, c, e); }
      else { ReadsKeepTokens(s, p, c, e); }
  }

  lemma RevokeGrows(s: State, p: Pid, src: Source, r: RevokePc, e: Event)
    requires p in s.procs && s.procs[p].Revoke?
    ensures RevokeStep(s, p, src, r, e).env == s.env && Grows(s.aap, RevokeStep(s, p, src, r, e).aap)
        && RevokeStep(s, p, src, r, e).config == s.config && ActorOnly(s, RevokeStep(s, p, src, r, e), p, false)
  {
    hide Grows; hide OnlyLive; hide ActorOnly; hide RevokeStep;
    LiveOnlyGrows(s, RevokeStep(s, p, src, r, e));
    if r.BySnapshot? || r.ByCurrent? || r.Revoked? { RevokeKeepsTokens(s, p, src, r, e); }
    else if r.LoadClient? || r.StoreClient? { LoadKeepsTokens(s, p, src, r, e); }
    else { ClientKeepsTokens(s, p, src, r, e); }
  }

  lemma RotateGrows(s: State, p: Pid, r: RotatePc, e: Event)
    requires Inv(s)
    ensures RotateStep(s, p, r, e).env == s.env && Grows(s.aap, RotateStep(s, p, r, e).aap)
    ensures !r.PutRoot? ==> RotateStep(s, p, r, e).config == s.config
  {
    hide Inv; hide Grows; hide OnlyLive; hide LoadRootStep; hide MintRootStep; hide VerifyRootStep; hide PutRootStep;
    hide CleanupRootStep; hide ResetRootStep; hide RevokeOldStep; hide RecordOldStep;
    LiveOnlyGrows(s, RotateStep(s, p, r, e));
    match r
    case MintRoot(config) => MintRootKeepsTokens(s, p, config, e);
    case PutRoot(config, next) => PutRootKeepsTokens(s, p, config, next, e);
    case _ => RotateKeepsTokens(s, p, r, e);
  }

  lemma WriteGrows(s: State, p: Pid, w: WritePc, e: Event)
    ensures OnlyLive(s, WriteStep(s, p, w, e)) && Grows(s.aap, WriteStep(s, p, w, e).aap)
  {
    hide Accept; hide NewClient; hide Works;
  }

  lemma MintRootMoves(s: State, p: Pid, config: Config, e: Event)
    requires Inv(s) && p in s.procs && s.procs[p] == Rotate(MintRoot(config))
    ensures RootOpsMove(s, MintRootStep(s, p, config, e))
  {
    hide Inv; hide NewClient; hide IdentityOf;
  }

  lemma RotateMoves(s: State, p: Pid, r: RotatePc, e: Event)
    requires Inv(s) && p in s.procs && s.procs[p] == Rotate(r)
    ensures RootOpsMove(s, RotateStep(s, p, r, e))
  {
    hide Inv; hide NewClient; hide Delete; hide DeleteConfirmed; hide Works; hide MintRootStep; hide RootOpsMove;
    if r.MintRoot? { MintRootMoves(s, p, r.config, e); } else { AfterMintMoves(s, p, r, e); }
  }

  lemma AfterMintMoves(s: State, p: Pid, r: RotatePc, e: Event)
    requires p in s.procs && s.procs[p] == Rotate(r) && !r.MintRoot?
    ensures RootOpsMove(s, RotateStep(s, p, r, e))
  {
    hide NewClient; hide Delete; hide DeleteConfirmed; hide Works; hide MintRootStep;
  }

  /** The environment neither changes operators' credentials nor starts a config write or delete. */
  predicate Undisturbed(a: Action) {
    !a.Operators? && !(a.Act? && a.e.Begin? && (a.e.op.Writing? || a.e.op.Deleting?))
  }

  lemma StepMoves(s: State, a: Action)
    requires Inv(s) && Undisturbed(a) && (forall q :: q in s.procs ==> !s.procs[q].Write?)
    ensures RootOpsMove(s, Next(s, a))
  {
    hide Inv; hide CredsStep; hide RevokeStep; hide RotateStep; hide WriteStep; hide TargetOf; hide Grows;
    if a.Act? && a.p in s.procs {
      match s.procs[a.p]
      case Creds(c) => CredsGrows(s, a.p, c, a.e);
      case Revoke(src, r) => RevokeGrows(s, a.p, src, r, a.e);
      case Rotate(r) => RotateMoves(s, a.p, r, a.e);
    }
  }

  /** Whatever the step: minted tokens are as they were, operators aside AAP only mints, and nothing but a
      rotation's or an operator's write touches the configuration. */
  lemma StepGrows(s: State, a: Action)
    requires Inv(s)
    ensures Next(s, a).env == s.env && (!a.Operators? ==> Grows(s.aap, Next(s, a).aap))
    ensures (a.Act? && a.p in s.procs ==> !s.procs[a.p].Write? && !(s.procs[a.p].Rotate? && s.procs[a.p].t.PutRoot?)) ==>
              Next(s, a).config == s.config
  {
    hide Inv; hide CredsStep; hide RevokeStep; hide RotateStep; hide WriteStep; hide TargetOf; hide Grows;
    AapStaysOrGrows(s);
    if a.Act? && a.p in s.procs {
      match s.procs[a.p]
      case Creds(c) => CredsGrows(s, a.p, c, a.e);
      case Revoke(src, r) => RevokeGrows(s, a.p, src, r, a.e);
      case Rotate(r) => RotateGrows(s, a.p, r, a.e);
      case Write(w) => WriteGrows(s, a.p, w, a.e);
    }
  }

  lemma NextKeepsTokens(s: State, a: Action)
    requires Inv(s)
    ensures KeepsTokens(s.aap, Next(s, a).aap)
  {
    hide Inv; hide CredsStep; hide RevokeStep; hide RotateStep; hide WriteStep; hide Start; hide CrashStep;
    StepGrows(s, a);
  }

  lemma {:induction false} RunKeepsTokens(s: State, actions: seq<Action>)
    requires Inv(s)
    ensures KeepsTokens(s.aap, Run(s, actions).aap)
  {
    hide Inv; hide Next;
    if actions != [] {
      var init := actions[..|actions| - 1];
      RunKeepsTokens(s, init);
      RunKeeps(s, init);
      NextKeepsTokens(Run(s, init), actions[|actions| - 1]);
    }
  }

  lemma {:induction false} RunSplits(s: State, actions: seq<Action>, k: nat)
    requires k <= |actions|
    ensures Run(s, actions) == Run(Run(s, actions[..k]), actions[k..])
  {
    hide Next;
    if k == |actions| {
      assert actions[..k] == actions;
    } else {
      var n := |actions| - 1;
      RunSplits(s, actions[..n], k);
      assert actions[..n][..k] == actions[..k];
      assert actions[k..][..n - k] == actions[..n][k..];
    }
  }
}
