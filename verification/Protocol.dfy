/** The token lifecycle as a state machine: AAP, the engine's storage, its cached client and its locks,
    the leases Vault holds, and any number of operations in flight. Every call to AAP, every storage
    access and every lock hand-over is one step, and the environment chooses each outcome. */
module Protocol {
  import opened Wrappers
  import opened Client
  import opened Snapshot
  import opened ConfigWrite
  import opened Marker
  import opened Aap
  import opened Roles

  type Pid = nat

  // ----- Records

  /** What a WAL record or a lease snapshots about one minted token. */
  datatype Grant = Grant(id: int, role: string, config: Config)

  /** A creds request: its role, the configuration it read, and the ids it resolved (0 when not asked for). */
  datatype Request = Request(name: string, role: Role, config: Config, application: int, user: int)

  datatype Lease = Lease(grant: Grant, ttl: int, maxTtl: int, request: Request)

  datatype Cached = Cached(client: AapClient, version: nat)

  datatype Source = FromLease(l: nat) | FromWal(w: nat)

  /** Which mechanism answers for a token. `holder` is the request still working under the WAL entry. */
  datatype Owner =
    | InWal(w: nat, holder: Option<Pid>) | InLease(l: nat) | Root | InFlight(p: Pid)
    | Gone(holder: Option<Pid>) | Orphan(cause: Cause)

  /** The residue: every way a live token can end up with nothing that will revoke it. */
  datatype Cause =
    | SweepFailed | SweepMissed | WalAndRevokeFailed
    | RootPostAmbiguous | RootCleanupFailed | OldRootRevokeAndWalFailed
    | OperatorReplaced | OperatorDeleted
    | CrashBeforeWal | CrashInSweep | CrashBeforeLease | CrashInRotation

  // ----- Operations in flight

  datatype CredsPc =
    | ReadConfig(name: string, role: Role)
    | ResolveApp(q: Request)
    | ResolveUser(q: Request)
    | Mint(q: Request)
    | SweepList(auth: Auth, description: string, marker: string, token: Option<int>)
    | SweepDelete(auth: Auth, ids: seq<int>, token: Option<int>)
    | PutWal(q: Request, id: int)
    | DropUnlogged(q: Request, id: int)
    | GuardApp(q: Request, id: int, w: nat)
    | GuardUser(q: Request, id: int, w: nat)
    | CheckContext(q: Request, id: int, w: nat)
    | Undo(q: Request, id: int, w: nat)
    | UndoWal(q: Request, id: int, w: nat)
    | Commit(q: Request, id: int, w: nat)
    | UndoCommit(q: Request, id: int, w: nat)
    | Respond(lease: Lease)

  /** `since` is the configuration version already settled when getClient was called. */
  datatype RevokePc =
    | BySnapshot(id: int, snapshot: Option<AapClient>)
    | CheckCache(id: int, since: nat)
    | AwaitLock(id: int, since: nat)
    | LoadClient(id: int, since: nat)
    | StoreClient(id: int, since: nat, built: Cached)
    | ByCurrent(id: int, since: nat, current: Cached)
    | Revoked(id: int)

  datatype RotatePc =
    | LoadRoot
    | MintRoot(config: Config)
    | VerifyRoot(config: Config, next: Config)
    | PutRoot(config: Config, next: Config)
    | CleanupRoot(config: Config, id: int)
    | ResetRoot(oldId: int, next: Config)
    | RevokeOld(oldId: int, next: Config)
    | RecordOld(oldId: int, next: Config)

  datatype WritePc =
    | Merge(create: bool, fields: Fields)
    | Probe(config: Config)
    | PutConfig(config: Config)
    | Remove
    | ResetClient

  datatype Proc = Creds(c: CredsPc) | Revoke(src: Source, r: RevokePc) | Rotate(t: RotatePc) | Write(w: WritePc)

  datatype Op = Minting(name: string, role: Role) | Revoking(src: Source) | Rotating
      | Writing(create: bool, fields: Fields) | Deleting

  /** The outcome the environment picks for the next step of one operation. */
  datatype Event =
    | Begin(op: Op)
    | Succeeds | Fails | Cancel
    | Lookup(named: seq<Named>)
    | Listing(rows: seq<Row>)
    | PostReplied(post: PostReply, requestId: string)
    | DeleteReplied(delete: DeleteReply)

  datatype Action =
    | Act(p: Pid, e: Event)
    | Crash
    | Invalidate
    | Operators(tokens: map<string, int>, accounts: map<(string, string), int>)

  datatype State = State(
    env: Env,
    aap: Server,
    config: Option<Config>, version: nat,   // storage "config", and how often it changed
    settled: nat,                           // the version of the last completed reset
    client: Option<Cached>, lock: Option<Pid>, configLock: Option<Pid>,
    wal: map<nat, Grant>, nextWal: nat,
    leases: map<nat, Lease>, nextLease: nat,
    procs: map<Pid, Proc>,
    markers: set<string>,                   // request ids used so far
    ledger: map<int, Owner>)                // bookkeeping: who answers for each token ever minted

  // ----- Helpers

  function Goto(s: State, p: Pid, pc: Proc): State { s.(procs := s.procs[p := pc]) }

  function End(s: State, p: Pid): State { s.(procs := s.procs - {p}) }

  function Own(s: State, id: int, o: Owner): State { s.(ledger := s.ledger[id := o]) }

  /** Nothing answers for the token any more: harmless if it is gone, an orphan if it is live. */
  function Abandon(s: State, id: int, cause: Cause): State {
    Own(s, id, if id in s.aap.live then Orphan(cause) else Gone(None))
  }

  function AbandonAny(s: State, token: Option<int>, cause: Cause): State {
    match token case None => s case Some(id) => Abandon(s, id, cause)
  }

  function DeleteFrom(s: State, auth: Auth, id: int, reply: DeleteReply): State {
    s.(aap := Delete(s.aap, auth, id, reply))
  }

  function AdminAuth(env: Env, config: Config): Auth
    requires NewClient(env, config).Ok?
  {
    NewClient(env, config).value.auth
  }

  /** A role's bootstrap token mints as that user, otherwise the engine's own identity does. */
  function MintAuth(env: Env, q: Request): Auth
    requires NewClient(env, q.config).Ok?
  {
    if q.role.bootstrapToken != "" then Bearer(q.role.bootstrapToken) else AdminAuth(env, q.config)
  }

  // ----- creds/<role>

  function AfterConfig(q: Request): CredsPc { if q.role.application != "" then ResolveApp(q) else AfterApp(q) }
  function AfterApp(q: Request): CredsPc { if q.role.username != "" then ResolveUser(q) else Mint(q) }

  function AfterWal(q: Request, id: int, w: nat): CredsPc {
    if q.application > 0 then GuardApp(q, id, w) else AfterGuardApp(q, id, w)
  }

  function AfterGuardApp(q: Request, id: int, w: nat): CredsPc {
    if q.role.username != "" then GuardUser(q, id, w) else CheckContext(q, id, w)
  }

  function MintStep(s: State, p: Pid, q: Request, reply: PostReply, requestId: string): State
    requires NewClient(s.env, q.config).Ok?
  {
    var auth := MintAuth(s.env, q);
    var description := MintDescription(q.config.tokenDescriptionPrefix, q.role.description, requestId);
    var id := s.aap.nextId;
    var s1 := s.(aap := Post(s.aap, auth, description, Some(requestId), reply), markers := s.markers + {requestId});
    if Creates(s.aap, auth, reply) then
      var s2 := Own(s1, id, InFlight(p));
      Goto(s2, p, Creds(if Answered(reply) then PutWal(q, id) else SweepList(auth, description, requestId, Some(id))))
    else if reply.Created? || reply.Refused? then End(s1, p)
    else Goto(s1, p, Creds(SweepList(auth, description, requestId, None)))
  }

  function FinishSweep(s: State, p: Pid, token: Option<int>, cause: Cause): State {
    End(AbandonAny(s, token, cause), p)
  }

  function SweepOn(s: State, p: Pid, auth: Auth, ids: seq<int>, token: Option<int>): State {
    if ids == [] then FinishSweep(s, p, token, SweepMissed) else Goto(s, p, Creds(SweepDelete(auth, ids, token)))
  }

  function ReadConfigStep(s: State, p: Pid, name: string, role: Role, e: Event): State {
    if e.Fails? then End(s, p)
    else if !e.Succeeds? then s
    else if s.config.None? || NewClient(s.env, s.config.value).Err? then End(s, p)
    else Goto(s, p, Creds(AfterConfig(Request(name, role, s.config.value, 0, 0))))
  }

  function ResolveAppStep(s: State, p: Pid, q: Request, e: Event): State {
    if e.Lookup? && ResolveId(e.named, q.role.application).Ok?
    then Goto(s, p, Creds(AfterApp(q.(application := ResolveId(e.named, q.role.application).value))))
    else if e.Lookup? || e.Fails? then End(s, p) else s
  }

  function ResolveUserStep(s: State, p: Pid, q: Request, e: Event): State {
    if e.Lookup? && ResolveId(e.named, q.role.username).Ok?
    then Goto(s, p, Creds(Mint(q.(user := ResolveId(e.named, q.role.username).value))))
    else if e.Lookup? || e.Fails? then End(s, p) else s
  }

  function AwaitMintStep(s: State, p: Pid, q: Request, e: Event): State {
    if e.PostReplied? && IsRequestId(e.requestId) && e.requestId !in s.markers && NewClient(s.env, q.config).Ok?
    then MintStep(s, p, q, e.post, e.requestId)
    else if e.Fails? then End(s, p) else s
  }

  function SweepListStep(s: State, p: Pid, auth: Auth, description: string, token: Option<int>, e: Event): State {
    if e.Listing? && Works(s.aap, auth) && Truthful(s.aap, e.rows)
    then SweepOn(s, p, auth, IdsWithDescription(e.rows, description), token)
    else if e.Fails? || (e.Listing? && !Works(s.aap, auth)) then FinishSweep(s, p, token, SweepFailed) else s
  }

  function SweepDeleteStep(s: State, p: Pid, auth: Auth, ids: seq<int>, token: Option<int>, e: Event): State {
    if !e.DeleteReplied? || ids == [] then s
    else
      var s1 := DeleteFrom(s, auth, ids[0], e.delete);
      if DeleteConfirmed(s.aap, auth, ids[0], e.delete) then SweepOn(s1, p, auth, ids[1..], token)
      else FinishSweep(s1, p, token, SweepFailed)
  }

  function PutWalStep(s: State, p: Pid, q: Request, id: int, e: Event): State {
    if e.Succeeds? then
      var w := s.nextWal;
      var s1 := s.(wal := s.wal[w := Grant(id, q.name, q.config)], nextWal := w + 1);
      Goto(Own(s1, id, InWal(w, Some(p))), p, Creds(AfterWal(q, id, w)))
    else if e.Fails? then Goto(s, p, Creds(DropUnlogged(q, id))) else s
  }

  function DropUnloggedStep(s: State, p: Pid, q: Request, id: int, e: Event): State {
    if e.DeleteReplied? && NewClient(s.env, q.config).Ok?
    then End(Abandon(DeleteFrom(s, AdminAuth(s.env, q.config), id, e.delete), id, WalAndRevokeFailed), p)
    else s
  }

  function GuardAppStep(s: State, p: Pid, q: Request, id: int, w: nat, e: Event): State {
    if e.Succeeds? && NewClient(s.env, q.config).Ok? && Works(s.aap, AdminAuth(s.env, q.config)) && id in s.aap.live
       && id in s.aap.tokens && s.aap.tokens[id].application == q.application
    then Goto(s, p, Creds(AfterGuardApp(q, id, w)))
    else if e.Succeeds? || e.Fails? then Goto(s, p, Creds(Undo(q, id, w))) else s
  }

  function GuardUserStep(s: State, p: Pid, q: Request, id: int, w: nat, e: Event): State {
    if e.Succeeds? && NewClient(s.env, q.config).Ok? && Works(s.aap, AdminAuth(s.env, q.config)) && id in s.aap.live
       && id in s.aap.tokens && s.aap.tokens[id].owner == q.user
    then Goto(s, p, Creds(CheckContext(q, id, w)))
    else if e.Succeeds? || e.Fails? then Goto(s, p, Creds(Undo(q, id, w))) else s
  }

  function CheckContextStep(s: State, p: Pid, q: Request, id: int, w: nat, e: Event): State {
    if e.Succeeds? then Goto(s, p, Creds(Commit(q, id, w))) else if e.Cancel? then Goto(s, p, Creds(Undo(q, id, w))) else s
  }

  function UndoStep(s: State, p: Pid, q: Request, id: int, w: nat, e: Event): State {
    if !e.DeleteReplied? || NewClient(s.env, q.config).Err? then s
    else
      var auth := AdminAuth(s.env, q.config);
      var s1 := DeleteFrom(s, auth, id, e.delete);
      if DeleteConfirmed(s.aap, auth, id, e.delete) then Goto(s1, p, Creds(UndoWal(q, id, w))) else End(s1, p)
  }

  function UndoWalStep(s: State, p: Pid, q: Request, id: int, w: nat, e: Event): State {
    if e.Succeeds? then End(Own(s.(wal := s.wal - {w}), id, Gone(Some(p))), p) else if e.Fails? then End(s, p) else s
  }

  function CommitStep(s: State, p: Pid, q: Request, id: int, w: nat, e: Event): State {
    if e.Succeeds? then
      var lease := Lease(Grant(id, q.name, q.config), q.role.ttl, q.role.maxTtl, q);
      Goto(Own(s.(wal := s.wal - {w}), id, InFlight(p)), p, Creds(Respond(lease)))
    else if e.Fails? then Goto(s, p, Creds(UndoCommit(q, id, w))) else s
  }

  function UndoCommitStep(s: State, p: Pid, q: Request, id: int, w: nat, e: Event): State {
    if e.DeleteReplied? && NewClient(s.env, q.config).Ok?
    then End(DeleteFrom(s, AdminAuth(s.env, q.config), id, e.delete), p) else s
  }

  function RespondStep(s: State, p: Pid, lease: Lease, e: Event): State {
    if e.Succeeds? then
      var s1 := s.(leases := s.leases[s.nextLease := lease], nextLease := s.nextLease + 1);
      End(Own(s1, lease.grant.id, InLease(s.nextLease)), p)
    else s
  }

  function CredsStep(s: State, p: Pid, c: CredsPc, e: Event): State {
    match c
    case ReadConfig(name, role) => ReadConfigStep(s, p, name, role, e)
    case ResolveApp(q) => ResolveAppStep(s, p, q, e)
    case ResolveUser(q) => ResolveUserStep(s, p, q, e)
    case Mint(q) => AwaitMintStep(s, p, q, e)
    case SweepList(auth, description, marker, token) => SweepListStep(s, p, auth, description, token, e)
    case SweepDelete(auth, ids, token) => SweepDeleteStep(s, p, auth, ids, token, e)
    case PutWal(q, id) => PutWalStep(s, p, q, id, e)
    case DropUnlogged(q, id) => DropUnloggedStep(s, p, q, id, e)
    case GuardApp(q, id, w) => GuardAppStep(s, p, q, id, w, e)
    case GuardUser(q, id, w) => GuardUserStep(s, p, q, id, w, e)
    case CheckContext(q, id, w) => CheckContextStep(s, p, q, id, w, e)
    case Undo(q, id, w) => UndoStep(s, p, q, id, w, e)
    case UndoWal(q, id, w) => UndoWalStep(s, p, q, id, w, e)
    case Commit(q, id, w) => CommitStep(s, p, q, id, w, e)
    case UndoCommit(q, id, w) => UndoCommitStep(s, p, q, id, w, e)
    case Respond(lease) => RespondStep(s, p, lease, e)
  }

  // ----- Lease revocation and WAL rollback

  function TargetOf(s: State, src: Source): Result<Target, DecodeError> {
    match src
    case FromLease(l) =>
      if l !in s.leases then Err(MissingTokenId)
      else var g := s.leases[l].grant; LeaseTarget(s.env, StoredLease(g.id, g.role, Some(g.config),
          s.env.keepsNumberText))
    case FromWal(w) =>
      if w !in s.wal then Err(MissingTokenId)
      else var g := s.wal[w]; WalTarget(s.env, StoredWal(g.id, g.role, Some(g.config), s.env.keepsNumberText))
  }

  /** Vault drops the lease, or the WAL entry, once its revocation has succeeded. */
  function Discharge(s: State, src: Source, id: int): State {
    match src
    case FromLease(l) => if l in s.leases then Own(s.(leases := s.leases - {l}), id, Gone(None)) else s
    case FromWal(w) =>
      if w in s.wal then
        Own(s.(wal := s.wal - {w}), id, Gone(if id in s.ledger && s.ledger[id].InWal? then s.ledger[id].holder
            else None))
      else s
  }

  function BySnapshotStep(s: State, p: Pid, src: Source, id: int, snapshot: Option<AapClient>, e: Event): State {
    if snapshot.None? then Goto(s, p, Revoke(src, CheckCache(id, s.settled)))
    else if !e.DeleteReplied? then s
    else
      var auth := snapshot.value.auth;
      var s1 := DeleteFrom(s, auth, id, e.delete);
      Goto(s1, p, Revoke(src, if DeleteConfirmed(s.aap, auth, id, e.delete) then Revoked(id) else CheckCache(id, s.settled)))
  }

  function CheckCacheStep(s: State, p: Pid, src: Source, id: int, since: nat, e: Event): State {
    if !e.Succeeds? || s.lock.Some? then s
    else Goto(s, p, Revoke(src, match s.client case Some(k) => ByCurrent(id, since, k) case None => AwaitLock(id, since)))
  }

  function AwaitLockStep(s: State, p: Pid, src: Source, id: int, since: nat, e: Event): State {
    if !e.Succeeds? || s.lock.Some? then s
    else Goto(s.(lock := Some(p)), p, Revoke(src, LoadClient(id, since)))
  }

  function LoadClientStep(s: State, p: Pid, src: Source, id: int, since: nat, e: Event): State {
    if s.client.Some? && (e.Succeeds? || e.Fails?) then Goto(s.(lock := None), p, Revoke(src, ByCurrent(id, since, s.client.value)))
    else if e.Succeeds? && s.config.Some? && NewClient(s.env, s.config.value).Ok?
    then Goto(s, p, Revoke(src, StoreClient(id, since, Cached(NewClient(s.env, s.config.value).value, s.version))))
    else if e.Succeeds? || e.Fails? then End(s.(lock := None), p) else s
  }

  function StoreClientStep(s: State, p: Pid, src: Source, id: int, since: nat, built: Cached, e: Event): State {
    if e.Succeeds? then Goto(s.(lock := None, client := Some(built)), p, Revoke(src, ByCurrent(id, since, built))) else s
  }

  function ByCurrentStep(s: State, p: Pid, src: Source, id: int, since: nat, k: Cached, e: Event): State {
    if !e.DeleteReplied? then s
    else
      var s1 := DeleteFrom(s, k.client.auth, id, e.delete);
      if DeleteConfirmed(s.aap, k.client.auth, id, e.delete) then Goto(s1, p, Revoke(src, Revoked(id))) else End(s1, p)
  }

  function RevokedStep(s: State, p: Pid, src: Source, id: int, e: Event): State {
    if e.Succeeds? then End(Discharge(s, src, id), p) else if e.Fails? then End(s, p) else s
  }

  function RevokeStep(s: State, p: Pid, src: Source, r: RevokePc, e: Event): State {
    match r
    case BySnapshot(id, snapshot) => BySnapshotStep(s, p, src, id, snapshot, e)
    case CheckCache(id, since) => CheckCacheStep(s, p, src, id, since, e)
    case AwaitLock(id, since) => AwaitLockStep(s, p, src, id, since, e)
    case LoadClient(id, since) => LoadClientStep(s, p, src, id, since, e)
    case StoreClient(id, since, built) => StoreClientStep(s, p, src, id, since, built, e)
    case ByCurrent(id, since, k) => ByCurrentStep(s, p, src, id, since, k, e)
    case Revoked(id) => RevokedStep(s, p, src, id, e)
  }

  // ----- config/rotate-root, under configLock

  function Unlock(s: State, p: Pid): State { End(s, p).(configLock := None) }

  function StoreConfig(s: State, config: Option<Config>): State {
    s.(config := config, version := s.version + 1)
  }

  function LoadRootStep(s: State, p: Pid, e: Event): State {
    if e.Fails? then Unlock(s, p)
    else if !e.Succeeds? then s
    else if s.config.None? || s.config.value.token == "" || NewClient(s.env, s.config.value).Err? then Unlock(s, p)
    else Goto(s, p, Rotate(MintRoot(s.config.value)))
  }

  function MintRootStep(s: State, p: Pid, config: Config, e: Event): State {
    if !e.PostReplied? || NewClient(s.env, config).Err? then s
    else
      var auth := AdminAuth(s.env, config);
      var id := s.aap.nextId;
      var s1 := s.(aap := Post(s.aap, auth, ROOT_DESCRIPTION, None, e.post));
      if !Creates(s.aap, auth, e.post) then Unlock(s1, p)
      else if Answered(e.post) then
        Goto(Own(s1, id, InFlight(p)), p, Rotate(VerifyRoot(config, config.(token := e.post.secret, tokenId := id))))
      else Unlock(Abandon(s1, id, RootPostAmbiguous), p)
  }

  function VerifyRootStep(s: State, p: Pid, config: Config, next: Config, e: Event): State {
    if e.Succeeds? && NewClient(s.env, next).Ok? && Works(s.aap, AdminAuth(s.env, next)) then Goto(s, p, Rotate(PutRoot(config, next)))
    else if e.Succeeds? || e.Fails? then Goto(s, p, Rotate(CleanupRoot(config, next.tokenId))) else s
  }

  function PutRootStep(s: State, p: Pid, config: Config, next: Config, e: Event): State {
    if e.Succeeds? then
      var s1 := Own(StoreConfig(s, Some(next)), next.tokenId, Root);
      var s2 := if config.tokenId > 0 then Own(s1, config.tokenId, InFlight(p)) else s1;
      Goto(s2, p, Rotate(ResetRoot(config.tokenId, next)))
    else if e.Fails? then Goto(s, p, Rotate(CleanupRoot(config, next.tokenId))) else s
  }

  function CleanupRootStep(s: State, p: Pid, config: Config, id: int, e: Event): State {
    if e.DeleteReplied? && NewClient(s.env, config).Ok?
    then Unlock(Abandon(DeleteFrom(s, AdminAuth(s.env, config), id, e.delete), id, RootCleanupFailed), p)
    else s
  }

  function ResetRootStep(s: State, p: Pid, oldId: int, next: Config, e: Event): State {
    if !e.Succeeds? || s.lock.Some? then s
    else
      var s1 := s.(client := None, settled := s.version);
      if oldId > 0 then Goto(s1, p, Rotate(RevokeOld(oldId, next))) else Unlock(s1, p)
  }

  function RevokeOldStep(s: State, p: Pid, oldId: int, next: Config, e: Event): State {
    if !e.DeleteReplied? || NewClient(s.env, next).Err? then s
    else
      var auth := AdminAuth(s.env, next);
      var s1 := DeleteFrom(s, auth, oldId, e.delete);
      if DeleteConfirmed(s.aap, auth, oldId, e.delete) then Unlock(Own(s1, oldId, Gone(None)), p)
      else Goto(s1, p, Rotate(RecordOld(oldId, next)))
  }

  function RecordOldStep(s: State, p: Pid, oldId: int, next: Config, e: Event): State {
    if e.Succeeds? then
      var w := s.nextWal;
      var s1 := s.(wal := s.wal[w := Grant(oldId, "config/rotate-root", next)], nextWal := w + 1);
      Unlock(Own(s1, oldId, InWal(w, None)), p)
    else if e.Fails? then Unlock(Abandon(s, oldId, OldRootRevokeAndWalFailed), p) else s
  }

  function RotateStep(s: State, p: Pid, t: RotatePc, e: Event): State {
    match t
    case LoadRoot => LoadRootStep(s, p, e)
    case MintRoot(config) => MintRootStep(s, p, config, e)
    case VerifyRoot(config, next) => VerifyRootStep(s, p, config, next, e)
    case PutRoot(config, next) => PutRootStep(s, p, config, next, e)
    case CleanupRoot(config, id) => CleanupRootStep(s, p, config, id, e)
    case ResetRoot(oldId, next) => ResetRootStep(s, p, oldId, next, e)
    case RevokeOld(oldId, next) => RevokeOldStep(s, p, oldId, next, e)
    case RecordOld(oldId, next) => RecordOldStep(s, p, oldId, next, e)
  }

  // ----- config writes and deletes, under configLock

  /** The stored root token is replaced by something else, or stays the root. */
  function ReleaseRoot(s: State, kept: int, cause: Cause): State {
    if s.config.Some? && s.config.value.tokenId > 0 && s.config.value.tokenId != kept
    then Abandon(s, s.config.value.tokenId, cause) else s
  }

  function MergeStep(s: State, p: Pid, create: bool, fields: Fields, e: Event): State {
    if e.Fails? then Unlock(s, p)
    else if !e.Succeeds? then s
    else (match Accept(s.env, s.config, create, fields)
          case Err(_) => Unlock(s, p)
          case Ok(config) => Goto(s, p, Write(Probe(config))))
  }

  function ProbeStep(s: State, p: Pid, config: Config, e: Event): State {
    if e.Succeeds? && NewClient(s.env, config).Ok? && Works(s.aap, AdminAuth(s.env, config)) then Goto(s, p, Write(PutConfig(config)))
    else if e.Succeeds? || e.Fails? then Unlock(s, p) else s
  }

  function PutConfigStep(s: State, p: Pid, config: Config, e: Event): State {
    if e.Succeeds? then Goto(StoreConfig(ReleaseRoot(s, config.tokenId, OperatorReplaced), Some(config)), p, Write(ResetClient))
    else if e.Fails? then Unlock(s, p) else s
  }

  function RemoveStep(s: State, p: Pid, e: Event): State {
    if e.Succeeds? then Goto(StoreConfig(ReleaseRoot(s, 0, OperatorDeleted), None), p, Write(ResetClient))
    else if e.Fails? then Unlock(s, p) else s
  }

  function ResetClientStep(s: State, p: Pid, e: Event): State {
    if !e.Succeeds? || s.lock.Some? then s else Unlock(s.(client := None, settled := s.version), p)
  }

  function WriteStep(s: State, p: Pid, w: WritePc, e: Event): State {
    match w
    case Merge(create, fields) => MergeStep(s, p, create, fields, e)
    case Probe(config) => ProbeStep(s, p, config, e)
    case PutConfig(config) => PutConfigStep(s, p, config, e)
    case Remove => RemoveStep(s, p, e)
    case ResetClient => ResetClientStep(s, p, e)
  }

  // ----- All steps

  function Start(s: State, p: Pid, op: Op): State {
    match op
    case Minting(name, role) => Goto(s, p, Creds(ReadConfig(name, role)))
    case Revoking(src) =>
      (match TargetOf(s, src)
       case Err(_) => s
       case Ok(t) => Goto(s, p, Revoke(src, BySnapshot(t.id, t.client))))
    case _ =>
      if s.configLock.Some? then s
      else
        var pc := match op
                  case Writing(create, fields) => Write(Merge(create, fields))
                  case Deleting => Write(Remove)
                  case _ => Rotate(LoadRoot);
        Goto(s.(configLock := Some(p)), p, pc)
  }

  function CrashCause(pc: Proc): Cause {
    match pc
    case Rotate(_) => CrashInRotation
    case Creds(Respond(_)) => CrashBeforeLease
    case Creds(SweepList(_, _, _, _)) => CrashInSweep
    case Creds(SweepDelete(_, _, _)) => CrashInSweep
    case _ => CrashBeforeWal
  }

  function AfterCrash(s: State, id: int): Owner
    requires id in s.ledger
  {
    match s.ledger[id]
    case InFlight(p) => if p in s.procs && id in s.aap.live then Orphan(CrashCause(s.procs[p])) else Gone(None)
    case o => o
  }

  /** The process dies: storage, leases and AAP survive, nothing in memory does. */
  function CrashStep(s: State): State {
    s.(procs := map[], lock := None, configLock := None, client := None, settled := s.version,
       ledger := map id | id in s.ledger :: AfterCrash(s, id))
  }

  function Next(s: State, a: Action): State {
    match a
    case Crash => CrashStep(s)
    case Invalidate => if s.lock.Some? then s else s.(client := None, settled := s.version)
    case Operators(tokens, accounts) =>
      if tokens.Keys !! s.aap.secrets.Keys then s.(aap := s.aap.(operators := tokens, accounts := accounts)) else s
    case Act(p, e) =>
      if p !in s.procs then if e.Begin? then Start(s, p, e.op) else s
      else match s.procs[p]
           case Creds(c) => CredsStep(s, p, c, e)
           case Revoke(src, r) => RevokeStep(s, p, src, r, e)
           case Rotate(t) => RotateStep(s, p, t, e)
           case Write(w) => WriteStep(s, p, w, e)
  }

  function Run(s: State, actions: seq<Action>): State {
    if actions == [] then s else Next(Run(s, actions[..|actions| - 1]), actions[|actions| - 1])
  }

  /** A fresh mount: nothing stored, nothing minted, any operators and any library code. */
  predicate Initial(s: State) {
    && s.aap.nextId > 0 && s.aap.tokens == map[] && s.aap.live == {} && s.aap.secrets == map[]
    && s.config == None && s.version == s.settled == 0
    && s.client == None && s.lock == None && s.configLock == None
    && s.wal == map[] && s.leases == map[] && s.procs == map[] && s.markers == {} && s.ledger == map[]
  }

  /** Reachable by some run, in any interleaving and with any outcomes. */
  ghost predicate Reachable(s: State) {
    exists s0: State, actions: seq<Action> :: Initial(s0) && s == Run(s0, actions)
  }
}
