/** The inductive invariant of the token lifecycle, and the frame within which one operation's step may
    change what the others rely on. */
module Invariant {
  import opened Wrappers
  import opened Client
  import opened Snapshot
  import opened ConfigWrite
  import opened Marker
  import opened Aap
  import opened Protocol

  // ----- What an operation in flight relies on

  /** The operation alone answers for this token. */
  ghost predicate Carries(pc: Proc, id: int) {
    match pc
    case Creds(SweepList(_, _, _, token)) => token == Some(id)
    case Creds(SweepDelete(_, _, token)) => token == Some(id)
    case Creds(PutWal(_, i)) => i == id
    case Creds(DropUnlogged(_, i)) => i == id
    case Creds(Respond(lease)) => lease.grant.id == id
    case Rotate(VerifyRoot(_, next)) => next.tokenId == id
    case Rotate(PutRoot(_, next)) => next.tokenId == id
    case Rotate(CleanupRoot(_, i)) => i == id
    case Rotate(ResetRoot(i, _)) => i > 0 && i == id
    case Rotate(RevokeOld(i, _)) => i == id
    case Rotate(RecordOld(i, _)) => i == id
    case _ => false
  }

  ghost predicate Carried(s: State, p: Pid, id: int) {
    id in s.aap.tokens && id in s.ledger && s.ledger[id] == InFlight(p)
  }

  ghost predicate IsRootToken(s: State, id: int) { id in s.aap.tokens && s.aap.tokens[id].marker.None? }

  ghost predicate IsMintedForRequest(s: State, id: int) { id in s.aap.tokens && s.aap.tokens[id].marker.Some? }

  /** The request's token is under its WAL entry, or a rollback has already revoked it. */
  ghost predicate Logged(s: State, p: Pid, id: int, w: nat) {
    && IsMintedForRequest(s, id) && id in s.ledger && w < s.nextWal
    && if w in s.wal then s.wal[w].id == id && s.ledger[id] == InWal(w, Some(p))
       else id !in s.aap.live && s.ledger[id] == Gone(Some(p))
  }

  ghost predicate SweepOk(s: State, p: Pid, token: Option<int>) {
    token.Some? ==> Carried(s, p, token.value) && IsMintedForRequest(s, token.value)
  }

  ghost predicate CredsOk(s: State, p: Pid, c: CredsPc) {
    match c
    case ReadConfig(_, _) => true
    case ResolveApp(q) => WellFormed(s.env, q.config)
    case ResolveUser(q) => WellFormed(s.env, q.config)
    case Mint(q) => WellFormed(s.env, q.config)
    case SweepList(_, description, marker, token) =>
      && SweepOk(s, p, token) && marker in s.markers && Marked(description, marker)
      && forall id :: id in s.aap.tokens && s.aap.tokens[id].marker == Some(marker) ==> token == Some(id)
    case SweepDelete(_, ids, token) => SweepOk(s, p, token) && ids != [] && forall id :: id in ids ==> token == Some(id)
    case PutWal(q, id) => WellFormed(s.env, q.config) && Carried(s, p, id) && IsMintedForRequest(s, id)
    case DropUnlogged(q, id) => WellFormed(s.env, q.config) && Carried(s, p, id) && IsMintedForRequest(s, id)
    case GuardApp(q, id, w) => WellFormed(s.env, q.config) && Logged(s, p, id, w)
    case GuardUser(q, id, w) => WellFormed(s.env, q.config) && Logged(s, p, id, w)
    case CheckContext(q, id, w) => WellFormed(s.env, q.config) && Logged(s, p, id, w)
    case Undo(q, id, w) => WellFormed(s.env, q.config) && Logged(s, p, id, w)
    case UndoWal(q, id, w) => WellFormed(s.env, q.config) && Logged(s, p, id, w) && id !in s.aap.live
    case Commit(q, id, w) => WellFormed(s.env, q.config) && Logged(s, p, id, w)
    case UndoCommit(q, id, w) => WellFormed(s.env, q.config) && Logged(s, p, id, w)
    case Respond(lease) =>
      WellFormed(s.env, lease.grant.config) && Carried(s, p, lease.grant.id) && IsMintedForRequest(s, lease.grant.id)
  }

  /** Never again the root token, whatever happens next. */
  ghost predicate Retired(s: State, id: int) {
    && id in s.aap.tokens && id in s.ledger
    && (s.aap.tokens[id].marker.Some? || s.ledger[id].InWal? || s.ledger[id].Gone? || s.ledger[id].Orphan?)
  }

  ghost predicate SourceOk(s: State, src: Source, id: int) {
    match src
    case FromLease(l) => l < s.nextLease && (l in s.leases ==> s.leases[l].grant.id == id)
    case FromWal(w) => w < s.nextWal && (w in s.wal ==> s.wal[w].id == id)
  }

  /** The client was built from the configuration of its version. */
  ghost predicate CachedOk(s: State, k: Cached) {
    && k.version <= s.version
    && (k.version == s.version ==> s.config.Some? && NewClient(s.env, s.config.value) == Ok(k.client))
  }

  ghost predicate RevokeOk(s: State, p: Pid, src: Source, r: RevokePc) {
    && Retired(s, r.id) && SourceOk(s, src, r.id)
    && match r
       case BySnapshot(_, _) => true
       case CheckCache(_, since) => since <= s.settled
       case AwaitLock(_, since) => since <= s.settled
       case LoadClient(_, since) => since <= s.settled && s.lock == Some(p)
       case StoreClient(_, since, built) =>
         since <= s.settled <= built.version && s.lock == Some(p) && CachedOk(s, built)
       case ByCurrent(_, since, current) => since <= current.version && CachedOk(s, current)
       case Revoked(id) => id !in s.aap.live
  }

  ghost predicate RotateOk(s: State, p: Pid, t: RotatePc) {
    && s.configLock == Some(p)
    && match t
       case LoadRoot => true
       case MintRoot(config) => s.config == Some(config) && config.token != ""
       case VerifyRoot(config, next) => s.config == Some(config) && config.token != "" && FreshRoot(s, p, config, next)
       case PutRoot(config, next) => s.config == Some(config) && config.token != "" && FreshRoot(s, p, config, next)
       case CleanupRoot(config, id) => s.config == Some(config) && Carried(s, p, id) && IsRootToken(s, id)
       case ResetRoot(oldId, next) => s.config == Some(next) && (oldId > 0 ==> Carried(s, p, oldId) && IsRootToken(s, oldId))
       case RevokeOld(oldId, next) => s.config == Some(next) && oldId > 0 && Carried(s, p, oldId) && IsRootToken(s, oldId)
       case RecordOld(oldId, next) => s.config == Some(next) && oldId > 0 && Carried(s, p, oldId) && IsRootToken(s, oldId)
  }

  ghost predicate FreshRoot(s: State, p: Pid, config: Config, next: Config) {
    && Carried(s, p, next.tokenId) && IsRootToken(s, next.tokenId) && next.tokenId in s.aap.live
    && next == config.(token := s.aap.tokens[next.tokenId].secret, tokenId := next.tokenId)
  }

  ghost predicate WriteOk(s: State, p: Pid, w: WritePc) {
    && s.configLock == Some(p)
    && match w
       case Probe(config) => WellFormed(s.env, config) && KeepsRoot(s, config)
       case PutConfig(config) => WellFormed(s.env, config) && KeepsRoot(s, config)
       case _ => true
  }

  ghost predicate KeepsRoot(s: State, config: Config) {
    config.tokenId > 0 ==>
      s.config.Some? && s.config.value.tokenId == config.tokenId && s.config.value.token == config.token
  }

  ghost predicate ProcOk(s: State, p: Pid, pc: Proc) {
    match pc
    case Creds(c) => CredsOk(s, p, c)
    case Revoke(src, r) => RevokeOk(s, p, src, r)
    case Rotate(t) => RotateOk(s, p, t)
    case Write(w) => WriteOk(s, p, w)
  }

  // ----- The shared state

  ghost predicate WalOk(s: State) {
    forall w :: w in s.wal ==>
      && w < s.nextWal && s.wal[w].id in s.ledger
      && s.ledger[s.wal[w].id].InWal? && s.ledger[s.wal[w].id].w == w
      && WellFormed(s.env, s.wal[w].config)
  }

  ghost predicate LeasesOk(s: State) {
    forall l :: l in s.leases ==>
      && l < s.nextLease && s.leases[l].grant.id in s.ledger
      && s.ledger[s.leases[l].grant.id] == InLease(l)
      && IsMintedForRequest(s, s.leases[l].grant.id)
      && WellFormed(s.env, s.leases[l].grant.config)
  }

  /** The stored root token is live, is the token of its id, and nothing else answers for it. */
  ghost predicate RootOk(s: State) {
    s.config.Some? ==>
      && WellFormed(s.env, s.config.value)
      && var id := s.config.value.tokenId;
         id > 0 ==> IsRootToken(s, id) && id in s.aap.live && id in s.ledger && s.ledger[id] == Root
                    && s.aap.tokens[id].secret == s.config.value.token
  }

  /** The owner in the ledger really holds the token. */
  ghost predicate AnsweredFor(s: State, id: int)
    requires id in s.ledger
  {
    match s.ledger[id]
    case InWal(w, _) => w in s.wal && s.wal[w].id == id
    case InLease(l) => l in s.leases && s.leases[l].grant.id == id
    case Root => s.config.Some? && s.config.value.tokenId == id > 0
    case InFlight(p) => p in s.procs && Carries(s.procs[p], id)
    case Gone(_) => false
    case Orphan(_) => true
  }

  ghost predicate LedgerOk(s: State) {
    && s.ledger.Keys == s.aap.tokens.Keys
    && forall id :: id in s.aap.live ==> id in s.ledger && AnsweredFor(s, id)
  }

  ghost predicate HoldsClientLock(pc: Proc) { pc.Revoke? && (pc.r.LoadClient? || pc.r.StoreClient?) }

  ghost predicate LocksOk(s: State) {
    && (s.lock.Some? ==> s.lock.value in s.procs && HoldsClientLock(s.procs[s.lock.value]))
    && (s.configLock.Some? ==> s.configLock.value in s.procs
                               && (s.procs[s.configLock.value].Rotate? || s.procs[s.configLock.value].Write?))
  }

  /** A configuration change is stored but its reset has not run yet. */
  ghost predicate ResetPending(s: State) {
    && s.configLock.Some? && s.configLock.value in s.procs
    && var pc := s.procs[s.configLock.value];
       (pc.Rotate? && pc.t.ResetRoot?) || (pc.Write? && pc.w.ResetClient?)
  }

  ghost predicate CacheOk(s: State) {
    && s.settled <= s.version
    && (s.client.Some? ==> s.settled <= s.client.value.version && CachedOk(s, s.client.value))
    && (s.settled == s.version || ResetPending(s))
  }

  ghost predicate SharedOk(s: State) {
    && ServerOk(s.aap, s.markers)
    && WalOk(s) && LeasesOk(s) && RootOk(s) && LedgerOk(s) && LocksOk(s) && CacheOk(s)
  }

  ghost predicate Inv(s: State) {
    SharedOk(s) && forall p :: p in s.procs ==> ProcOk(s, p, s.procs[p])
  }

  // ----- What a step of operation p leaves alone

  ghost predicate FrameServer(s: State, t: State) {
    && t.env == s.env && s.markers <= t.markers && s.aap.nextId <= t.aap.nextId
    && (forall id :: id in s.aap.tokens ==> id in t.aap.tokens && t.aap.tokens[id] == s.aap.tokens[id])
    && (forall id :: id in s.aap.tokens && id in t.aap.live ==> id in s.aap.live)
    && (forall id :: id in t.aap.tokens && id !in s.aap.tokens ==>
          t.aap.tokens[id].marker.Some? ==> t.aap.tokens[id].marker.value !in s.markers)
  }

  ghost predicate HeldByOther(s: State, id: int, p: Pid) {
    id in s.ledger && (s.ledger[id].InWal? || s.ledger[id].Gone?) && s.ledger[id].holder.Some?
        && s.ledger[id].holder.value != p
  }

  /** Tokens of other operations keep their owner, and their root tokens stay live. */
  ghost predicate FrameLedger(s: State, t: State, p: Pid) {
    && (forall id :: id in s.ledger && s.ledger[id].InFlight? && s.ledger[id].p != p ==>
          && id in t.ledger && t.ledger[id] == s.ledger[id]
          && (id in s.aap.live && IsRootToken(s, id) ==> id in t.aap.live))
    && (forall id :: HeldByOther(s, id, p) ==>
          && id in t.ledger
          && (t.ledger[id] == s.ledger[id] || (s.ledger[id].InWal? && t.ledger[id] == Gone(s.ledger[id].holder))))
    && (forall id :: Retired(s, id) ==> Retired(t, id))
  }

  /** Records are only added or removed; another operation's WAL entry goes only with its token. */
  ghost predicate FrameRecords(s: State, t: State, p: Pid) {
    && s.nextWal <= t.nextWal && s.nextLease <= t.nextLease
    && (forall w :: w in t.wal && w < s.nextWal ==> w in s.wal && t.wal[w] == s.wal[w])
    && (forall w :: w in s.wal && HeldByOther(s, s.wal[w].id, p) && s.ledger[s.wal[w].id].InWal? ==>
          && s.wal[w].id in t.ledger
          && if w in t.wal then t.ledger[s.wal[w].id] == s.ledger[s.wal[w].id]
             else s.wal[w].id !in t.aap.live && t.ledger[s.wal[w].id].Gone?)
    && (forall l :: l in t.leases && l < s.nextLease ==> l in s.leases && t.leases[l] == s.leases[l])
  }

  ghost predicate FrameLocks(s: State, t: State, p: Pid) {
    && (forall q :: q != p ==> (q in s.procs <==> q in t.procs) && (q in s.procs ==> t.procs[q] == s.procs[q]))
    && (forall q :: q != p && s.lock == Some(q) ==> t.lock == s.lock && t.settled == s.settled)
    && (forall q :: q != p && s.configLock == Some(q) ==> t.configLock == s.configLock && t.config == s.config)
    && s.settled <= t.settled && s.version <= t.version
    && (s.version == t.version ==> s.config == t.config)
  }

  ghost predicate Frame(s: State, t: State, p: Pid) {
    FrameServer(s, t) && FrameLedger(s, t, p) && FrameRecords(s, t, p) && FrameLocks(s, t, p)
  }

  lemma OtherCredsOk(s: State, t: State, p: Pid, q: Pid, c: CredsPc)
    requires Inv(s) && Frame(s, t, p) && q != p && CredsOk(s, q, c)
    ensures CredsOk(t, q, c)
  {
  }

  lemma OtherRevokeOk(s: State, t: State, p: Pid, q: Pid, src: Source, r: RevokePc)
    requires Inv(s) && Frame(s, t, p) && q != p && RevokeOk(s, q, src, r)
    ensures RevokeOk(t, q, src, r)
  {
  }

  lemma OtherRotateOk(s: State, t: State, p: Pid, q: Pid, r: RotatePc)
    requires Inv(s) && Frame(s, t, p) && q != p && RotateOk(s, q, r)
    ensures RotateOk(t, q, r)
  {
  }

  lemma OtherWriteOk(s: State, t: State, p: Pid, q: Pid, w: WritePc)
    requires Inv(s) && Frame(s, t, p) && q != p && WriteOk(s, q, w)
    ensures WriteOk(t, q, w)
  {
  }

  /** A step within the frame only has to look after the shared state and its own operation. */
  lemma Assemble(s: State, t: State, p: Pid)
    requires Inv(s) && Frame(s, t, p) && SharedOk(t)
    requires p in t.procs ==> ProcOk(t, p, t.procs[p])
    ensures Inv(t)
  {
    forall q | q in t.procs && q != p
      ensures ProcOk(t, q, t.procs[q])
    {
      assert ProcOk(s, q, s.procs[q]);
      match s.procs[q]
      case Creds(c) => OtherCredsOk(s, t, p, q, c);
      case Revoke(src, r) => OtherRevokeOk(s, t, p, q, src, r);
      case Rotate(r) => OtherRotateOk(s, t, p, q, r);
      case Write(w) => OtherWriteOk(s, t, p, q, w);
    }
  }

  /** A step that is within everybody's frame only has to look after the shared state. */
  lemma Bystanders(s: State, t: State)
    requires Inv(s) && SharedOk(t) && t.procs == s.procs && forall p :: Frame(s, t, p)
    ensures Inv(t)
  {
    hide SharedOk; hide Frame; hide CredsOk; hide RevokeOk; hide RotateOk; hide WriteOk;
    forall q | q in t.procs
      ensures ProcOk(t, q, t.procs[q])
    {
      assert ProcOk(s, q, s.procs[q]) && Frame(s, t, q + 1);
      match s.procs[q]
      case Creds(c) => OtherCredsOk(s, t, q + 1, q, c);
      case Revoke(src, r) => OtherRevokeOk(s, t, q + 1, q, src, r);
      case Rotate(r) => OtherRotateOk(s, t, q + 1, q, r);
      case Write(w) => OtherWriteOk(s, t, q + 1, q, w);
    }
  }
}
