/** What a run of rotations leaves behind: root tokens are conserved. */
module Conservation {
  import opened Wrappers
  import opened Client
  import opened ConfigWrite
  import opened Marker
  import opened Aap
  import opened Roles
  import opened Protocol
  import opened Invariant
  import opened StepKinds
  import opened Lifecycle
  import opened Ownership
  import opened Effects

  // ----- Conservation

  /** The process never dies, and AAP's answer to every root mint reaches the engine. */
  ghost predicate MintOutcomesArrive(s0: State, actions: seq<Action>) {
    forall k :: 0 <= k < |actions| ==>
      && !actions[k].Crash?
      && (var s := Run(s0, actions[..k]);
          actions[k].Act? && actions[k].e.PostReplied? && actions[k].p in s.procs && s.procs[actions[k].p].Rotate? ==>
            !actions[k].e.post.CreatedLost?)
  }

  predicate Reported(c: Cause) { c == RootCleanupFailed || c == OldRootRevokeAndWalFailed }
  predicate OperatorsDoing(c: Cause) { c == OperatorReplaced || c == OperatorDeleted }

  lemma CredsCarryMinted(s: State, p: Pid, id: int)
    requires Inv(s) && p in s.procs && s.procs[p].Creds? && Carries(s.procs[p], id)
    ensures IsMintedForRequest(s, id)
  {
    hide WellFormed; hide NewClient; hide ServerOk; hide WalOk; hide LeasesOk; hide RootOk; hide LedgerOk; hide LocksOk;
    hide CacheOk;
    assert ProcOk(s, p, s.procs[p]);
  }

  lemma ExplainedRootCause(s0: State, actions: seq<Action>, k: nat, id: int, c: Cause)
    requires Initial(s0) && MintOutcomesArrive(s0, actions) && k < |actions|
    requires Explains(Run(s0, actions[..k]), actions[k], id, c) && IsRootToken(Run(s0, actions), id)
    ensures Reported(c) || OperatorsDoing(c)
  {
    hide Inv; hide Next; hide Run; hide NewClient; hide MayDelete; hide Works;
    var s := Run(s0, actions[..k]);
    InitialInv(s0);
    RunKeeps(s0, actions[..k]);
    if s.procs[actions[k].p].Creds? {
      CredsCarryMinted(s, actions[k].p, id);
      RunKeepsTokens(s, actions[k..]);
      RunSplits(s0, actions, k);
    }
  }

  /** Any number of serialized rotations, mixed with everything else: once no rotation is in flight, the
      live root tokens are the stored one and those recorded in the WAL, reported, or given up by an operator. */
  lemma RootTokensAreConserved(s0: State, actions: seq<Action>, id: int)
    requires Initial(s0) && MintOutcomesArrive(s0, actions)
    requires forall p :: p in Run(s0, actions).procs ==> !Run(s0, actions).procs[p].Rotate?
    ensures var s := Run(s0, actions);
            && (id in s.aap.live && IsRootToken(s, id) ==>
                  || AnswersFor(s, ByConfig, id)
                  || (exists w :: AnswersFor(s, ByWal(w), id))
                  || (exists c :: AnswersFor(s, ByNobody(c), id) && (Reported(c) || OperatorsDoing(c))))
            && (AnswersFor(s, ByConfig, id) ==> id in s.aap.live && IsRootToken(s, id))
  {
    hide Inv; hide Run; hide Next; hide Explains; hide MintOutcomesArrive;
    var s := Run(s0, actions);
    InitialInv(s0);
    RunKeeps(s0, actions);
    RootIsPositive(s);
    if id in s.aap.live && IsRootToken(s, id) {
      assert Reachable(s);
      ExactlyOneAnswers(s, id);
      var m :| AnswersFor(s, m, id);
      match m
      case ByLease(l) => LeasedIsMinted(s, l);
      case ByWal(w) =>
      case ByConfig =>
      case ByOperation(p) => OnlyTwoKindsCarry(s, p, id); if s.procs[p].Creds? { CredsCarryMinted(s, p, id); }
      case ByNobody(c) =>
        OrphansAreExplained(s0, actions, id, c);
        var k :| 0 <= k < |actions| && Explains(Run(s0, actions[..k]), actions[k], id, c);
        ExplainedRootCause(s0, actions, k, id, c);
    }
  }

  lemma LeasedIsMinted(s: State, l: nat)
    requires Inv(s) && l in s.leases
    ensures IsMintedForRequest(s, s.leases[l].grant.id)
  {
    hide WellFormed; hide NewClient; hide ServerOk; hide WalOk; hide ProcOk; hide RootOk; hide LedgerOk; hide LocksOk;
    hide CacheOk;
  }

  lemma OnlyTwoKindsCarry(s: State, p: Pid, id: int)
    requires p in s.procs && Carries(s.procs[p], id)
    ensures s.procs[p].Creds? || s.procs[p].Rotate?
  {
  }
}
