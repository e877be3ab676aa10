/** Where "no orphaned credentials" holds across a crash or a lost WAL entry, and where it does not. */
module Windows {
  import opened Wrappers
  import opened Client
  import opened ConfigWrite
  import opened Marker
  import opened Aap
  import opened Roles
  import opened Protocol
  import opened Invariant
  import opened StepKinds
  import opened Lifecycle
  import opened Ownership
  import opened Effects
  import opened Revocation
  import opened Issuance
  import opened Rotations

  // ----- A crash

  /** The minted token a creds request still has to account for. */
  function Handled(c: CredsPc): Option<int> {
    match c
    case SweepList(_, _, _, token) => token
    case SweepDelete(_, _, token) => token
    case PutWal(_, id) => Some(id)
    case DropUnlogged(_, id) => Some(id)
    case GuardApp(_, id, _) => Some(id)
    case GuardUser(_, id, _) => Some(id)
    case CheckContext(_, id, _) => Some(id)
    case Undo(_, id, _) => Some(id)
    case UndoWal(_, id, _) => Some(id)
    case Commit(_, id, _) => Some(id)
    case UndoCommit(_, id, _) => Some(id)
    case Respond(lease) => Some(lease.grant.id)
    case _ => None
  }

  /** The request's token is, at this point, named by a WAL entry in storage. */
  predicate UnderWal(c: CredsPc) { MayRefuse(c) || c.Commit? }

  lemma HandledOwner(s: State, p: Pid, id: int)
    requires Inv(s) && p in s.procs && s.procs[p].Creds? && Handled(s.procs[p].c) == Some(id) && id in s.aap.live
    ensures id in s.ledger
    ensures if UnderWal(s.procs[p].c) then s.procs[p].c.w in s.wal && s.wal[s.procs[p].c.w].id == id
            else s.ledger[id] == InFlight(p)
  {
    hide WellFormed; hide NewClient; hide ServerOk; hide WalOk; hide LeasesOk; hide RootOk; hide LedgerOk; hide LocksOk;
    hide CacheOk;
    assert ProcOk(s, p, s.procs[p]);
  }

  /** A crash during a creds request: its live token is still going to be revoked if and only if its WAL
      entry is in storage at that moment. Before it is written, and after it is deleted but before Vault has
      registered the lease, the token is left to nobody. */
  lemma CrashIsCoveredIff(s: State, p: Pid, id: int)
    requires Reachable(s) && p in s.procs && s.procs[p].Creds? && Handled(s.procs[p].c) == Some(id) && id in s.aap.live
    ensures var t := Next(s, Crash);
            && id in t.aap.live
            && ((exists m :: AnswersFor(t, m, id) && !m.ByNobody?) <==> UnderWal(s.procs[p].c))
            && (!UnderWal(s.procs[p].c) ==> AnswersFor(t, ByNobody(CrashCause(s.procs[p])), id))
  {
    hide Reachable; hide Inv; hide AfterCrash; hide CrashCause;
    ReachableInv(s);
    NextKeeps(s, Crash);
    HandledOwner(s, p, id);
    var t := Next(s, Crash);
    if UnderWal(s.procs[p].c) {
      assert AnswersFor(t, ByWal(s.procs[p].c.w), id);
    } else {
      assert t.ledger[id] == Orphan(CrashCause(s.procs[p])) by { CrashedOwner(s, p, id); }
      forall m | AnswersFor(t, m, id)
        ensures m.ByNobody?
      {
        OwnerIsRecorded(t, m, id);
      }
    }
  }

  lemma CrashedOwner(s: State, p: Pid, id: int)
    requires p in s.procs && id in s.ledger && s.ledger[id] == InFlight(p) && id in s.aap.live
    ensures AfterCrash(s, id) == Orphan(CrashCause(s.procs[p]))
  {
  }

  // ----- A WAL entry that could not be written

  /** If PutWAL fails, the token is lost if and only if the one DELETE that follows does not take effect:
      AAP does not act on it, or the credential that minted the token may no longer delete it. Whether the
      configuration now stored could do it does not matter; the engine does not try. */
  lemma UnloggedIsLostIff(s: State, p: Pid, q: Request, id: int, reply: DeleteReply)
    requires Inv(s) && p in s.procs && s.procs[p] == Creds(DropUnlogged(q, id)) && id in s.aap.live
    ensures NewClient(s.env, q.config).Ok?
    ensures var t := Next(s, Act(p, DeleteReplied(reply)));
            && p !in t.procs && id in t.ledger
            && (t.ledger[id] == Orphan(WalAndRevokeFailed) <==>
                  reply.DeleteFailed? || !MayDelete(s.aap, AdminAuth(s.env, q.config), id))
            && (t.ledger[id] == Orphan(WalAndRevokeFailed) <==> id in t.aap.live)
  {
    hide Inv; hide MayDelete; hide NewClient; hide WellFormed; hide RevokeStep; hide RotateStep; hide WriteStep;
    hide Start;
    Knows(s, p);
    assert NewClient(s.env, q.config).Ok? by { UnloggedBuilds(s, p, q, id); }
  }

  lemma UnloggedBuilds(s: State, p: Pid, q: Request, id: int)
    requires Inv(s) && p in s.procs && s.procs[p] == Creds(DropUnlogged(q, id))
    ensures NewClient(s.env, q.config).Ok?
  {
    hide NewClient; hide ServerOk; hide WalOk; hide LeasesOk; hide RootOk; hide LedgerOk; hide LocksOk; hide CacheOk;
    assert ProcOk(s, p, s.procs[p]);
  }

  // ----- One such run

  const ENVIRONMENT := Env(text => Some(Url("https", "aap")), text => true, true)
  const STORED := EMPTY_CONFIG.(address := "https://aap", token := "operator", tokensApiPath := DEFAULT_TOKENS_API_PATH)
  const WRITE := Fields(Some("https://aap"), Some("operator"), None, None, None, None, None, None, None,
                        Some(Rotation(false)))
  const ROLE := Role("read", "", 0, 0, "", "", "")
  const REQUEST_ID := "00000000-0000-0000-0000-000000000000"
  const FRESH := State(ENVIRONMENT, Server(1, map[], {}, map[], map["operator" := 7], map[], {7}), None, 0, 0, None,
      None, None,
                       map[], 0, map[], 0, map[], {}, map[])

  lemma ReachOn(s: State, a: Action)
    requires Reachable(s)
    ensures Reachable(Next(s, a))
  {
    hide Next; hide Run; hide Initial;
    var s0: State, actions: seq<Action> :| Initial(s0) && s == Run(s0, actions);
    RunOn(s0, actions, a);
  }

  lemma FreshIsReachable()
    ensures Reachable(FRESH)
  {
    hide Run;
    RunNothing(FRESH);
  }

  lemma StoredBuilds()
    ensures NewClient(ENVIRONMENT, STORED).Ok? && AdminAuth(ENVIRONMENT, STORED) == Bearer("operator")
    ensures Accept(ENVIRONMENT, None, true, WRITE) == Ok(STORED)
  {
    assert NewClient(ENVIRONMENT, STORED).Ok?;
    assert Merged(None, WRITE) == STORED;
  }

  /** An operator configures the engine. */
  lemma Configured() returns (s: State)
    ensures Reachable(s)
    ensures s == FRESH.(config := Some(STORED), version := 1, settled := 1)
  {
    hide Reachable; hide Accept; hide NewClient; hide Truthful; hide CredsStep; hide RevokeStep; hide RotateStep;
    FreshIsReachable();
    StoredBuilds();
    var s0 := FRESH;
    var ok := Act(0, Succeeds);
    ReachOn(s0, Act(0, Begin(Writing(true, WRITE))));
    var s1 := Next(s0, Act(0, Begin(Writing(true, WRITE))));
    ReachOn(s1, ok);
    var s2 := Next(s1, ok);
    assert s2.procs == map[0 := Write(Probe(STORED))];
    ReachOn(s2, ok);
    var s3 := Next(s2, ok);
    assert s3.procs == map[0 := Write(PutConfig(STORED))];
    ReachOn(s3, ok);
    var s4 := Next(s3, ok);
    assert s4.procs == map[0 := Write(ResetClient)];
    ReachOn(s4, ok);
    s := Next(s4, ok);
  }

  /** From there on the engine runs as the operator's privileged identity, through every later rotation. */
  lemma RunsAsOperator(actions: seq<Action>) returns (s: State)
    requires forall k :: 0 <= k < |actions| ==> Undisturbed(actions[k])
    ensures Reachable(s) && s.config == Some(STORED) && 7 in s.aap.privileged && RunsAs(Run(s, actions), 7)
  {
    hide Reachable; hide Run; hide Inv; hide NewClient;
    s := Configured();
    StoredBuilds();
    ConfiguredEngineRunsAs(s, actions, 7);
  }

  const GRANTED := Grant(1, "ci", STORED)
  const REQUESTED := Request("ci", ROLE, STORED, 0, 0)

  /** A creds request mints a token. */
  lemma JustMinted() returns (s: State)
    ensures Reachable(s) && s.wal == map[] && s.leases == map[] && s.procs == map[0 := Creds(PutWal(REQUESTED, 1))]
    ensures s.aap.live == {1} && s.config == Some(STORED) && s.nextWal == 0
  {
    hide Reachable; hide NewClient; hide RevokeStep; hide RotateStep; hide WriteStep; hide MintDescription;
    StoredBuilds();
    var s0 := Configured();
    var ok := Act(0, Succeeds);
    ReachOn(s0, Act(0, Begin(Minting("ci", ROLE))));
    var s1 := Next(s0, Act(0, Begin(Minting("ci", ROLE))));
    ReachOn(s1, ok);
    var s2 := Next(s1, ok);
    assert s2.procs == map[0 := Creds(Mint(REQUESTED))];
    var post := Act(0, PostReplied(Created("secret", 0), REQUEST_ID));
    ReachOn(s2, post);
    s := Next(s2, post);
  }

  /** It records the token, is not cancelled, and deletes its WAL entry. */
  lemma AboutToAnswer() returns (s: State)
    ensures Reachable(s) && s.wal == map[] && s.leases == map[]
        && s.procs == map[0 := Creds(Respond(Lease(GRANTED, 0, 0, REQUESTED)))]
    ensures s.aap.live == {1}
  {
    hide Reachable; hide NewClient; hide RevokeStep; hide RotateStep; hide WriteStep;
    var s0 := JustMinted();
    var ok := Act(0, Succeeds);
    ReachOn(s0, ok);
    var s1 := Next(s0, ok);
    assert s1.procs == map[0 := Creds(CheckContext(REQUESTED, 1, 0))];
    ReachOn(s1, ok);
    var s2 := Next(s1, ok);
    assert s2.procs == map[0 := Creds(Commit(REQUESTED, 1, 0))];
    ReachOn(s2, ok);
    s := Next(s2, ok);
    assert s.wal == map[];
  }

  /** So the promise fails in a run where AAP and storage answered everything: if the process dies before
      Vault has the lease, the token is live and no lease, WAL entry or configuration names it. */
  lemma CrashWindowIsReal() returns (s: State)
    ensures Reachable(s) && s.procs == map[] && s.wal == map[] && s.leases == map[]
    ensures s.aap.live == {1} && AnswersFor(s, ByNobody(CrashBeforeLease), 1)
    ensures forall m :: AnswersFor(s, m, 1) ==> m == ByNobody(CrashBeforeLease)
  {
    hide Reachable; hide Inv; hide CredsStep; hide RevokeStep; hide RotateStep; hide WriteStep;
    var s0 := AboutToAnswer();
    ReachOn(s0, Crash);
    s := Next(s0, Crash);
    CrashIsCoveredIff(s0, 0, 1);
  }
}
