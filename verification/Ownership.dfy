/** Every live token the engine minted is answered for by exactly one mechanism, the stored root token is
    always live and out of reach of any revocation, and a token is orphaned only in the listed ways. */
module Ownership {
  import opened Wrappers
  import opened Client
  import opened ConfigWrite
  import opened Marker
  import opened Aap
  import opened Roles
  import opened Protocol
  import opened Invariant
  import opened StepKinds
  import opened Lifecycle

  // ----- Exactly one mechanism

  datatype Mechanism = ByLease(l: nat) | ByWal(w: nat) | ByConfig | ByOperation(p: Pid) | ByNobody(cause: Cause)

  /** Read off the state: the records and operations that name the token. */
  ghost predicate AnswersFor(s: State, m: Mechanism, id: int) {
    match m
    case ByLease(l) => l in s.leases && s.leases[l].grant.id == id
    case ByWal(w) => w in s.wal && s.wal[w].id == id
    case ByConfig => s.config.Some? && s.config.value.tokenId == id > 0
    case ByOperation(p) => p in s.procs && Carries(s.procs[p], id)
    case ByNobody(c) => id in s.ledger && s.ledger[id] == Orphan(c)
  }

  function MechanismOf(o: Owner): Mechanism
    requires !o.Gone?
  {
    match o
    case InWal(w, _) => ByWal(w)
    case InLease(l) => ByLease(l)
    case Root => ByConfig
    case InFlight(p) => ByOperation(p)
    case Orphan(c) => ByNobody(c)
  }

  lemma CarriedIsInFlight(s: State, p: Pid, id: int)
    requires Inv(s) && p in s.procs && Carries(s.procs[p], id)
    ensures id in s.ledger && s.ledger[id] == InFlight(p)
  {
    hide WellFormed; hide NewClient; hide ServerOk; hide WalOk; hide LeasesOk; hide RootOk; hide LedgerOk; hide LocksOk;
    hide CacheOk;
    assert ProcOk(s, p, s.procs[p]);
  }

  lemma OwnerIsRecorded(s: State, m: Mechanism, id: int)
    requires Inv(s) && AnswersFor(s, m, id)
    ensures id in s.ledger && !s.ledger[id].Gone? && MechanismOf(s.ledger[id]) == m
  {
    hide WellFormed; hide NewClient; hide ServerOk; hide ProcOk; hide LocksOk; hide CacheOk; hide Carries;
    if m.ByOperation? { CarriedIsInFlight(s, m.p, id); }
  }

  /** No orphans and no double ownership: in every state any interleaving can reach, a live minted token
      has one and only one mechanism that answers for it, or is in the residue under one cause. */
  lemma ExactlyOneAnswers(s: State, id: int)
    requires Reachable(s) && id in s.aap.live
    ensures exists m :: AnswersFor(s, m, id) && forall n :: AnswersFor(s, n, id) ==> n == m
  {
    hide Reachable; hide Inv;
    ReachableInv(s);
    Agrees(s, id);
    var m := MechanismOf(s.ledger[id]);
    forall n | AnswersFor(s, n, id)
      ensures n == m
    {
      OwnerIsRecorded(s, n, id);
    }
    assert AnswersFor(s, m, id) by { RootIsPositive(s); }
  }

  lemma RootIsPositive(s: State)
    requires Inv(s)
    ensures RootOk(s)
  {
  }

  /** Between WAL, leases and the stored root token no id is shared, whether or not it is still live. */
  lemma RecordsAreDisjoint(s: State, l: nat, w: nat)
    requires Reachable(s)
    ensures l in s.leases && w in s.wal ==> s.leases[l].grant.id != s.wal[w].id
    ensures s.config.Some? && s.config.value.tokenId > 0 ==>
              && (l in s.leases ==> s.leases[l].grant.id != s.config.value.tokenId)
              && (w in s.wal ==> s.wal[w].id != s.config.value.tokenId)
    ensures forall v :: v in s.wal && w in s.wal && s.wal[v].id == s.wal[w].id ==> v == w
    ensures forall k :: k in s.leases && l in s.leases && s.leases[k].grant.id == s.leases[l].grant.id ==> k == l
  {
    hide Reachable; hide WellFormed; hide NewClient; hide ServerOk; hide ProcOk; hide LocksOk; hide CacheOk;
    ReachableInv(s);
  }

  // ----- The stored root token

  ghost predicate Targets(pc: Proc, id: int) { pc.Revoke? && pc.r.id == id }

  /** After every individual step of anything, including every step and failure exit of a rotation and
      every crash: the stored minted token is live, it is the secret AAP issued under the stored id, and
      no revocation or rollback in flight is aimed at it. */
  lemma StoredRootIsLive(s: State)
    requires Reachable(s) && s.config.Some? && s.config.value.tokenId > 0
    ensures var c := s.config.value;
            && c.tokenId in s.aap.live && c.tokenId in s.aap.tokens && s.aap.tokens[c.tokenId].secret == c.token
            && NewClient(s.env, c).Ok? && AdminAuth(s.env, c) == Bearer(c.token) && Works(s.aap, AdminAuth(s.env, c))
            && forall p :: p in s.procs ==> !Targets(s.procs[p], c.tokenId)
  {
    hide Reachable;
    ReachableInv(s);
    RootWorks(s);
    forall p | p in s.procs
      ensures !Targets(s.procs[p], s.config.value.tokenId)
    {
      NotTargeted(s, p);
    }
  }

  lemma RootWorks(s: State)
    requires Inv(s) && s.config.Some? && s.config.value.tokenId > 0
    ensures var c := s.config.value;
            && c.tokenId in s.aap.live && c.tokenId in s.aap.tokens && s.aap.tokens[c.tokenId].secret == c.token
            && NewClient(s.env, c).Ok? && AdminAuth(s.env, c) == Bearer(c.token) && Works(s.aap, AdminAuth(s.env, c))
  {
    hide ProcOk; hide WalOk; hide LeasesOk; hide LedgerOk; hide LocksOk; hide CacheOk;
  }

  lemma NotTargeted(s: State, p: Pid)
    requires Inv(s) && s.config.Some? && s.config.value.tokenId > 0 && p in s.procs
    ensures !Targets(s.procs[p], s.config.value.tokenId)
  {
    hide WellFormed; hide NewClient; hide ServerOk; hide WalOk; hide LeasesOk; hide LedgerOk; hide LocksOk;
    hide CacheOk;
    assert ProcOk(s, p, s.procs[p]);
  }

  // ----- How a token can be orphaned

  /** The token stays live through a DELETE that was not confirmed. */
  ghost predicate UnconfirmedDelete(s: State, auth: Auth, id: int, e: Event) {
    && e.DeleteReplied? && !DeleteConfirmed(s.aap, auth, id, e.delete)
    && id in Delete(s.aap, auth, id, e.delete).live
  }

  /** What operation pc was doing when outcome e left this token to nobody. */
  ghost predicate ExplainsCreds(s: State, pc: CredsPc, e: Event, id: int, c: Cause) {
    match c
    case SweepFailed =>
      || (pc.SweepList? && pc.token == Some(id) && (e.Fails? || (e.Listing? && !Works(s.aap, pc.auth))))
      || (pc.SweepDelete? && pc.token == Some(id) && UnconfirmedDelete(s, pc.auth, id, e))
    case SweepMissed => pc.SweepList? && pc.token == Some(id) && e.Listing? && Row(id, pc.description) !in e.rows
    case WalAndRevokeFailed =>
      pc.DropUnlogged? && pc.id == id && NewClient(s.env, pc.q.config).Ok?
          && UnconfirmedDelete(s, AdminAuth(s.env, pc.q.config), id, e)
    case _ => false
  }

  ghost predicate ExplainsRotate(s: State, pc: RotatePc, e: Event, id: int, c: Cause) {
    match c
    case RootPostAmbiguous => pc.MintRoot? && e.PostReplied? && e.post.CreatedLost? && id == s.aap.nextId
    case RootCleanupFailed =>
      pc.CleanupRoot? && pc.id == id && NewClient(s.env, pc.config).Ok?
          && UnconfirmedDelete(s, AdminAuth(s.env, pc.config), id, e)
    case OldRootRevokeAndWalFailed => pc.RecordOld? && pc.oldId == id && e.Fails?
    case _ => false
  }

  ghost predicate ExplainsWrite(s: State, pc: WritePc, e: Event, id: int, c: Cause) {
    && e.Succeeds? && s.config.Some? && s.config.value.tokenId == id > 0
    && (|| (c == OperatorReplaced && pc.PutConfig? && pc.config.tokenId != id)
        || (c == OperatorDeleted && pc.Remove?))
  }

  /** The step that leaves this token to nobody, by what its operation was doing, or a crash. */
  ghost predicate Explains(s: State, a: Action, id: int, c: Cause) {
    match a
    case Crash => exists p :: p in s.procs && Carries(s.procs[p], id) && CrashCause(s.procs[p]) == c
    case Act(p, e) =>
      && p in s.procs
      && (match s.procs[p]
          case Creds(pc) => ExplainsCreds(s, pc, e, id, c)
          case Rotate(pc) => ExplainsRotate(s, pc, e, id, c)
          case Write(pc) => ExplainsWrite(s, pc, e, id, c)
          case Revoke(_, _) => false)
    case _ => false
  }

  ghost predicate NewlyOrphaned(s: State, t: State, id: int, c: Cause) {
    id in t.ledger && t.ledger[id] == Orphan(c) && !(id in s.ledger && s.ledger[id] == Orphan(c))
  }

  lemma DeleteOutcome(s: State, auth: Auth, id: int, reply: DeleteReply)
    ensures DeleteConfirmed(s.aap, auth, id, reply) ==> id !in Delete(s.aap, auth, id, reply).live
  {
  }

  lemma SweepListOrphans(s: State, p: Pid, pc: CredsPc, e: Event, id: int, c: Cause)
    requires Inv(s) && p in s.procs && s.procs[p] == Creds(pc) && pc.SweepList?
    requires NewlyOrphaned(s, SweepListStep(s, p, pc.auth, pc.description, pc.token, e), id, c)
    ensures ExplainsCreds(s, pc, e, id, c)
  {
    hide Inv; hide Works;
    if e.Listing? { IdsWithDescriptionMeaning(e.rows, pc.description, id); }
    TokensArePositive(s);
  }

  lemma SweepDeleteOrphans(s: State, p: Pid, pc: CredsPc, e: Event, id: int, c: Cause)
    requires Inv(s) && p in s.procs && s.procs[p] == Creds(pc) && pc.SweepDelete?
    requires NewlyOrphaned(s, SweepDeleteStep(s, p, pc.auth, pc.ids, pc.token, e), id, c)
    ensures ExplainsCreds(s, pc, e, id, c)
  {
    hide Inv; hide WellFormed; hide NewClient; hide MayDelete; hide Works;
    Knows(s, p);
    if e.DeleteReplied? {
      assert pc.ids[0] in pc.ids;
      DeleteOutcome(s, pc.auth, id, e.delete);
    }
  }

  lemma TokensArePositive(s: State)
    requires Inv(s)
    ensures forall id :: id in s.aap.live ==> id > 0
  {
  }

  lemma CredsOrphans(s: State, p: Pid, pc: CredsPc, e: Event, id: int, c: Cause)
    requires p in s.procs && s.procs[p] == Creds(pc) && !pc.SweepList? && !pc.SweepDelete?
    requires NewlyOrphaned(s, CredsStep(s, p, pc, e), id, c)
    ensures ExplainsCreds(s, pc, e, id, c)
  {
    hide NewClient; hide MayDelete; hide Works; hide ResolveId; hide MintDescription; hide IdentityOf;
    hide SweepListStep; hide SweepDeleteStep;
    if pc.DropUnlogged? && e.DeleteReplied? && NewClient(s.env, pc.q.config).Ok? {
      DeleteOutcome(s, AdminAuth(s.env, pc.q.config), id, e.delete);
    }
  }

  lemma RevokeOrphans(s: State, p: Pid, e: Event, id: int, c: Cause)
    requires p in s.procs && s.procs[p].Revoke?
    ensures !NewlyOrphaned(s, RevokeStep(s, p, s.procs[p].src, s.procs[p].r, e), id, c)
  {
    hide NewClient; hide MayDelete;
  }

  lemma RotateOrphans(s: State, p: Pid, pc: RotatePc, e: Event, id: int, c: Cause)
    requires p in s.procs && s.procs[p] == Rotate(pc)
    requires NewlyOrphaned(s, RotateStep(s, p, pc, e), id, c)
    ensures ExplainsRotate(s, pc, e, id, c)
  {
    hide NewClient; hide MayDelete; hide Works; hide IdentityOf;
    if pc.CleanupRoot? && e.DeleteReplied? && NewClient(s.env, pc.config).Ok? {
      DeleteOutcome(s, AdminAuth(s.env, pc.config), id, e.delete);
    }
  }

  lemma WriteOrphans(s: State, p: Pid, pc: WritePc, e: Event, id: int, c: Cause)
    requires p in s.procs && s.procs[p] == Write(pc)
    requires NewlyOrphaned(s, WriteStep(s, p, pc, e), id, c)
    ensures ExplainsWrite(s, pc, e, id, c)
  {
    hide NewClient; hide Accept; hide Works;
  }

  lemma CrashOrphans(s: State, id: int, c: Cause)
    requires Inv(s) && NewlyOrphaned(s, CrashStep(s), id, c)
    ensures Explains(s, Crash, id, c)
  {
    hide WellFormed; hide NewClient; hide ServerOk; hide ProcOk; hide LocksOk; hide CacheOk; hide WalOk; hide LeasesOk;
    hide RootOk;
    var o := s.ledger[id];
    assert o.InFlight? && AnsweredFor(s, id);
    assert o.p in s.procs && Carries(s.procs[o.p], id);
  }

  lemma StepExplainsOrphan(s: State, a: Action, id: int, c: Cause)
    requires Inv(s) && NewlyOrphaned(s, Next(s, a), id, c)
    ensures Explains(s, a, id, c)
  {
    hide Inv; hide RevokeStep; hide RotateStep; hide WriteStep; hide CrashStep; hide TargetOf; hide ReadConfigStep;
    hide ResolveAppStep; hide ResolveUserStep; hide AwaitMintStep; hide SweepListStep; hide SweepDeleteStep;
    hide PutWalStep; hide DropUnloggedStep; hide GuardAppStep; hide GuardUserStep; hide CheckContextStep; hide UndoStep;
    hide UndoWalStep; hide CommitStep; hide UndoCommitStep; hide RespondStep; hide ExplainsCreds; hide ExplainsRotate;
    hide ExplainsWrite;
    match a
    case Crash => CrashOrphans(s, id, c);
    case Invalidate =>
    case Operators(_, _) =>
    case Act(p, e) =>
      if p in s.procs {
        match s.procs[p]
        case Creds(pc) =>
          if pc.SweepList? { SweepListOrphans(s, p, pc, e, id, c); }
          else if pc.SweepDelete? { SweepDeleteOrphans(s, p, pc, e, id, c); }
          else { CredsOrphans(s, p, pc, e, id, c); }
        case Revoke(_, _) => RevokeOrphans(s, p, e, id, c);
        case Rotate(pc) => RotateOrphans(s, p, pc, e, id, c);
        case Write(pc) => WriteOrphans(s, p, pc, e, id, c);
      }
  }

  /** The residue is exactly what its causes say: an orphan in any run goes back to one step of the run
      that explains it. */
  lemma {:induction false} OrphansAreExplained(s0: State, actions: seq<Action>, id: int, c: Cause)
    requires Initial(s0) && id in Run(s0, actions).ledger && Run(s0, actions).ledger[id] == Orphan(c)
    ensures exists k :: 0 <= k < |actions| && Explains(Run(s0, actions[..k]), actions[k], id, c)
  {
    hide Inv; hide Next; hide Explains;
    if actions != [] {
      var n := |actions| - 1;
      var init := actions[..n];
      var s := Run(s0, init);
      InitialInv(s0);
      RunKeeps(s0, init);
      if id in s.ledger && s.ledger[id] == Orphan(c) {
        OrphansAreExplained(s0, init, id, c);
        var k :| 0 <= k < n && Explains(Run(s0, init[..k]), init[k], id, c);
        assert init[..k] == actions[..k];
      } else {
        StepExplainsOrphan(s, actions[n], id, c);
      }
    }
  }
}
