/** The invariant holds in every reachable state: initially, after any step of any operation, after a
    crash, and whatever operators do to their own credentials. */
module Lifecycle {
  import opened Wrappers
  import Decimal
  import opened Client
  import opened Snapshot
  import opened ConfigWrite
  import opened Marker
  import opened Aap
  import opened Roles
  import opened Protocol
  import opened Invariant
  import opened StepKinds
  import opened CredsSteps
  import opened RevokeSteps
  import opened RootSteps

  lemma CredsStepKeeps(s: State, p: Pid, c: CredsPc, e: Event)
    requires Inv(s) && p in s.procs && s.procs[p] == Creds(c)
    ensures Inv(CredsStep(s, p, c, e))
  {
    hide Inv; hide ReadConfigStep; hide ResolveAppStep; hide ResolveUserStep; hide AwaitMintStep; hide SweepListStep;
    hide SweepDeleteStep; hide PutWalStep; hide DropUnloggedStep; hide GuardAppStep; hide GuardUserStep;
    hide CheckContextStep; hide UndoStep; hide UndoWalStep; hide CommitStep; hide UndoCommitStep; hide RespondStep;
    match c
    case ReadConfig(name, role) => ReadConfigStepKeeps(s, p, name, role, e);
    case ResolveApp(q) => ResolveAppStepKeeps(s, p, q, e);
    case ResolveUser(q) => ResolveUserStepKeeps(s, p, q, e);
    case Mint(q) => AwaitMintStepKeeps(s, p, q, e);
    case SweepList(auth, description, marker, token) => SweepListStepKeeps(s, p, auth, description, token, e, marker);
    case SweepDelete(auth, ids, token) => SweepDeleteStepKeeps(s, p, auth, ids, token, e);
    case PutWal(q, id) => PutWalStepKeeps(s, p, q, id, e);
    case DropUnlogged(q, id) => DropUnloggedStepKeeps(s, p, q, id, e);
    case GuardApp(q, id, w) => GuardAppStepKeeps(s, p, q, id, w, e);
    case GuardUser(q, id, w) => GuardUserStepKeeps(s, p, q, id, w, e);
    case CheckContext(q, id, w) => CheckContextStepKeeps(s, p, q, id, w, e);
    case Undo(q, id, w) => UndoStepKeeps(s, p, q, id, w, e);
    case UndoWal(q, id, w) => UndoWalStepKeeps(s, p, q, id, w, e);
    case Commit(q, id, w) => CommitStepKeeps(s, p, q, id, w, e);
    case UndoCommit(q, id, w) => UndoCommitStepKeeps(s, p, q, id, w, e);
    case Respond(lease) => RespondStepKeeps(s, p, lease, e);
  }

  lemma RevokeStepKeeps(s: State, p: Pid, src: Source, r: RevokePc, e: Event)
    requires Inv(s) && p in s.procs && s.procs[p] == Revoke(src, r)
    ensures Inv(RevokeStep(s, p, src, r, e))
  {
    hide Inv; hide BySnapshotStep; hide CheckCacheStep; hide AwaitLockStep; hide LoadClientStep; hide StoreClientStep;
    hide ByCurrentStep; hide RevokedStep;
    match r
    case BySnapshot(id, snapshot) => BySnapshotStepKeeps(s, p, src, id, snapshot, e);
    case CheckCache(id, since) => CheckCacheStepKeeps(s, p, src, id, since, e);
    case AwaitLock(id, since) => AwaitLockStepKeeps(s, p, src, id, since, e);
    case LoadClient(id, since) => LoadClientStepKeeps(s, p, src, id, since, e);
    case StoreClient(id, since, built) => StoreClientStepKeeps(s, p, src, id, since, built, e);
    case ByCurrent(id, since, k) => ByCurrentStepKeeps(s, p, src, id, since, k, e);
    case Revoked(id) => RevokedStepKeeps(s, p, src, id, e);
  }

  lemma RotateStepKeeps(s: State, p: Pid, t: RotatePc, e: Event)
    requires Inv(s) && p in s.procs && s.procs[p] == Rotate(t)
    ensures Inv(RotateStep(s, p, t, e))
  {
    hide Inv; hide LoadRootStep; hide MintRootStep; hide VerifyRootStep; hide PutRootStep; hide CleanupRootStep;
    hide ResetRootStep; hide RevokeOldStep; hide RecordOldStep;
    match t
    case LoadRoot => LoadRootStepKeeps(s, p, e);
    case MintRoot(config) => MintRootStepKeeps(s, p, config, e);
    case VerifyRoot(config, next) => VerifyRootStepKeeps(s, p, config, next, e);
    case PutRoot(config, next) => PutRootStepKeeps(s, p, config, next, e);
    case CleanupRoot(config, id) => CleanupRootStepKeeps(s, p, config, id, e);
    case ResetRoot(oldId, next) => ResetRootStepKeeps(s, p, oldId, next, e);
    case RevokeOld(oldId, next) => RevokeOldStepKeeps(s, p, oldId, next, e);
    case RecordOld(oldId, next) => RecordOldStepKeeps(s, p, oldId, next, e);
  }

  lemma WriteStepKeeps(s: State, p: Pid, w: WritePc, e: Event)
    requires Inv(s) && p in s.procs && s.procs[p] == Write(w)
    ensures Inv(WriteStep(s, p, w, e))
  {
    hide Inv; hide MergeStep; hide ProbeStep; hide PutConfigStep; hide RemoveStep; hide ResetClientStep;
    match w
    case Merge(create, fields) => MergeStepKeeps(s, p, create, fields, e);
    case Probe(config) => ProbeStepKeeps(s, p, config, e);
    case PutConfig(config) => PutConfigStepKeeps(s, p, config, e);
    case Remove => RemoveStepKeeps(s, p, e);
    case ResetClient => ResetClientStepKeeps(s, p, e);
  }

  // ----- Starting an operation

  predicate Recorded(s: State, src: Source) {
    match src case FromLease(l) => l in s.leases case FromWal(w) => w in s.wal
  }

  function GrantOf(s: State, src: Source): Grant
    requires Recorded(s, src)
  {
    match src case FromLease(l) => s.leases[l].grant case FromWal(w) => s.wal[w]
  }

  /** What revocation reads back from storage is the token that was granted, and the client it was minted with. */
  lemma TargetIsGrant(s: State, src: Source)
    requires Inv(s)
    ensures Recorded(s, src) <==> TargetOf(s, src).Ok?
    ensures Recorded(s, src) ==>
              var g := GrantOf(s, src);
              && WellFormed(s.env, g.config) && NewClient(s.env, g.config).Ok?
              && TargetOf(s, src) == Ok(Target(g.id, Some(NewClient(s.env, g.config).value)))
              && Retired(s, g.id) && SourceOk(s, src, g.id)
  {
    hide LeaseTarget; hide WalTarget; hide StoredLease; hide StoredWal; hide ProcOk; hide RootOk; hide LocksOk;
    hide CacheOk;
    if Recorded(s, src) {
      var g := GrantOf(s, src);
      GrantFacts(s, src);
      SnapshotRoundTrip(s.env, g.id, g.role, g.config, s.env.keepsNumberText);
    }
  }

  lemma GrantFacts(s: State, src: Source)
    requires Inv(s) && Recorded(s, src)
    ensures var g := GrantOf(s, src);
            && WellFormed(s.env, g.config) && NewClient(s.env, g.config).Ok? && g.config.address != ""
            && g.id in s.aap.tokens && 0 < g.id && Decimal.IsInt64(g.id) && Retired(s, g.id) && SourceOk(s, src, g.id)
  {
    hide ProcOk; hide RootOk; hide LocksOk; hide CacheOk;
  }

  lemma StartKeeps(s: State, p: Pid, op: Op)
    requires Inv(s) && p !in s.procs
    ensures Inv(Start(s, p, op))
  {
    hide Inv; hide TargetOf; hide WellFormed; hide NewClient;
    if op.Revoking? { TargetIsGrant(s, op.src); }
    var t := Start(s, p, op);
    if t != s { BegunKeeps(s, t, p); }
  }

  /** A new operation appears, which answers for nothing yet. */
  ghost predicate Begun(s: State, t: State, p: Pid) {
    && t == s.(procs := s.procs[p := if p in t.procs then t.procs[p] else Rotate(LoadRoot)], configLock := t.configLock)
    && p !in s.procs && p in t.procs && ProcOk(t, p, t.procs[p])
    && (t.configLock == s.configLock || (s.configLock == None && t.configLock == Some(p) && (t.procs[p].Rotate?
        || t.procs[p].Write?)))
  }

  lemma BegunShared(s: State, t: State, p: Pid)
    requires Inv(s) && Begun(s, t, p)
    ensures SharedOk(t)
  {
    hide WellFormed; hide NewClient; hide ProcOk; hide ServerOk;
    forall id | id in t.aap.live
      ensures id in t.ledger && AnsweredFor(t, id)
    {
      assert AnsweredFor(s, id);
    }
  }

  lemma BegunFrame(s: State, t: State, p: Pid)
    requires Begun(s, t, p)
    ensures Frame(s, t, p)
  {
    hide ProcOk;
  }

  lemma BegunKeeps(s: State, t: State, p: Pid)
    requires Inv(s) && Begun(s, t, p)
    ensures Inv(t)
  {
    hide Inv; hide SharedOk; hide Frame; hide ProcOk;
    BegunShared(s, t, p);
    BegunFrame(s, t, p);
    Assemble(s, t, p);
  }

  // ----- Crashes and the environment

  lemma CrashKeeps(s: State)
    requires Inv(s)
    ensures Inv(CrashStep(s))
  {
    hide WellFormed; hide NewClient; hide ProcOk; hide CrashCause;
    var t := CrashStep(s);
    forall id | id in t.aap.live
      ensures id in t.ledger && AnsweredFor(t, id)
    {
      assert AnsweredFor(s, id);
    }
  }

  lemma InvalidateKeeps(s: State)
    requires Inv(s)
    ensures Inv(Next(s, Invalidate))
  {
    hide Inv; hide SharedOk; hide Frame; hide CredsStep; hide RevokeStep; hide RotateStep; hide WriteStep;
    hide CrashStep; hide Start;
    if s.lock.None? {
      var t := s.(client := None, settled := s.version);
      EmptyCacheShared(s, t);
      forall p ensures Frame(s, t, p) { EmptyCacheFrame(s, t, p); }
      Bystanders(s, t);
    }
  }

  lemma EmptyCacheShared(s: State, t: State)
    requires Inv(s) && s.lock == None && t == s.(client := None, settled := s.version)
    ensures SharedOk(t)
  {
    hide WellFormed; hide NewClient; hide ProcOk; hide ServerOk; hide Carries;
  }

  lemma EmptyCacheFrame(s: State, t: State, p: Pid)
    requires Inv(s) && s.lock == None && t == s.(client := None, settled := s.version)
    ensures Frame(s, t, p)
  {
    hide WellFormed; hide NewClient; hide ProcOk; hide ServerOk; hide WalOk; hide LeasesOk; hide RootOk; hide LedgerOk;
  }

  lemma OperatorsKeep(s: State, tokens: map<string, int>, accounts: map<(string, string), int>)
    requires Inv(s) && tokens.Keys !! s.aap.secrets.Keys
    ensures Inv(s.(aap := s.aap.(operators := tokens, accounts := accounts)))
  {
    hide Inv; hide SharedOk; hide Frame;
    var t := s.(aap := s.aap.(operators := tokens, accounts := accounts));
    OperatorsShared(s, t);
    forall p ensures Frame(s, t, p) { OperatorsFrame(s, t, p); }
    Bystanders(s, t);
  }

  ghost predicate OperatorsChange(s: State, t: State) {
    t == s.(aap := s.aap.(operators := t.aap.operators, accounts := t.aap.accounts))
  }

  lemma OperatorsShared(s: State, t: State)
    requires Inv(s) && OperatorsChange(s, t) && t.aap.operators.Keys !! s.aap.secrets.Keys
    ensures SharedOk(t)
  {
    hide WellFormed; hide NewClient; hide ProcOk; hide Carries;
  }

  lemma OperatorsFrame(s: State, t: State, p: Pid)
    requires OperatorsChange(s, t)
    ensures Frame(s, t, p)
  {
  }

  // ----- Every reachable state

  lemma NextKeeps(s: State, a: Action)
    requires Inv(s)
    ensures Inv(Next(s, a))
  {
    hide Inv; hide CredsStep; hide RevokeStep; hide RotateStep; hide WriteStep; hide CrashStep; hide Start;
    match a
    case Crash => CrashKeeps(s);
    case Invalidate => InvalidateKeeps(s);
    case Operators(tokens, accounts) => if tokens.Keys !! s.aap.secrets.Keys { OperatorsKeep(s, tokens, accounts); }
    case Act(p, e) =>
      if p !in s.procs {
        if e.Begin? { StartKeeps(s, p, e.op); }
      } else {
        match s.procs[p]
        case Creds(c) => CredsStepKeeps(s, p, c, e);
        case Revoke(src, r) => RevokeStepKeeps(s, p, src, r, e);
        case Rotate(t) => RotateStepKeeps(s, p, t, e);
        case Write(w) => WriteStepKeeps(s, p, w, e);
      }
  }

  lemma InitialInv(s: State)
    requires Initial(s)
    ensures Inv(s)
  {
  }

  lemma {:induction false} RunKeeps(s: State, actions: seq<Action>)
    requires Inv(s)
    ensures Inv(Run(s, actions))
  {
    hide Inv; hide Next;
    if actions != [] {
      RunKeeps(s, actions[..|actions| - 1]);
      NextKeeps(Run(s, actions[..|actions| - 1]), actions[|actions| - 1]);
    }
  }

  lemma ReachableInv(s: State)
    requires Reachable(s)
    ensures Inv(s)
  {
    hide Inv; hide Run;
    var s0: State, actions: seq<Action> :| Initial(s0) && s == Run(s0, actions);
    InitialInv(s0);
    RunKeeps(s0, actions);
  }
}
