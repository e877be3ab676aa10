/** Every step of a root rotation, a config write or a config delete keeps the invariant. */
module RootSteps {
  import opened Wrappers
  import opened Decimal
  import opened Client
  import opened ConfigWrite
  import opened Marker
  import opened Aap
  import opened Protocol
  import opened Invariant
  import opened StepKinds

  // ----- The holder of configLock moves on or lets go

  ghost predicate HolderMoves(s: State, t: State, p: Pid) {
    && t == s.(procs := t.procs, configLock := t.configLock) && SameOthers(s, t, p) && StillCarries(s, t, p)
    && s.configLock == Some(p)
    && (t.configLock == None || (t.configLock == Some(p) && p in t.procs && (t.procs[p].Rotate? || t.procs[p].Write?)))
    && (s.procs[p].Rotate? ==> !s.procs[p].t.ResetRoot?) && (s.procs[p].Write? ==> !s.procs[p].w.ResetClient?)
  }

  lemma HolderMovesShared(s: State, t: State, p: Pid)
    requires Inv(s) && HolderMoves(s, t, p)
    ensures SharedOk(t)
  {
    hide WellFormed; hide NewClient; hide ProcOk; hide ServerOk;
    forall id | id in t.aap.live
      ensures id in t.ledger && AnsweredFor(t, id)
    {
      assert AnsweredFor(s, id);
    }
  }

  lemma HolderMovesFrame(s: State, t: State, p: Pid)
    requires HolderMoves(s, t, p)
    ensures Frame(s, t, p)
  {
    hide Carries;
  }

  lemma HolderMovesKeeps(s: State, t: State, p: Pid)
    requires Inv(s) && HolderMoves(s, t, p) && (p in t.procs ==> ProcOk(t, p, t.procs[p]))
    ensures Inv(t)
  {
    hide Inv; hide SharedOk; hide Frame; hide ProcOk; hide HolderMoves;
    HolderMovesShared(s, t, p);
    HolderMovesFrame(s, t, p);
    Assemble(s, t, p);
  }

  // ----- A new configuration is stored

  ghost predicate IsOldRoot(s: State, id: int) { s.config.Some? && s.config.value.tokenId == id > 0 }

  /** Only the old root token and what p carried change owners, and each new owner is real. */
  ghost predicate ConfigChanges(s: State, t: State, p: Pid) {
    && t == s.(config := t.config, version := s.version + 1, ledger := t.ledger, procs := t.procs)
        && SameOthers(s, t, p)
    && s.configLock == Some(p) && p in s.procs && ResetPending(t) && RootOk(t)
    && t.ledger.Keys == s.ledger.Keys
    && (forall i :: i in s.ledger && t.ledger[i] != s.ledger[i] ==>
          && (IsOldRoot(s, i) || s.ledger[i] == InFlight(p))
          && !t.ledger[i].InWal? && !t.ledger[i].InLease?
          && (i in s.aap.live ==> AnsweredFor(t, i)))
    && (forall i :: i in s.ledger && t.ledger[i] == s.ledger[i] && IsOldRoot(s, i) ==> IsOldRoot(t, i))
    && (forall i :: Carries(s.procs[p], i) ==> i in s.ledger && t.ledger[i] != s.ledger[i])
  }

  lemma ConfigChangesRecords(s: State, t: State, p: Pid)
    requires Inv(s) && ConfigChanges(s, t, p)
    ensures ServerOk(t.aap, t.markers) && WalOk(t) && LeasesOk(t) && LocksOk(t) && CacheOk(t)
  {
    hide WellFormed; hide NewClient; hide ProcOk; hide ServerOk; hide AnsweredFor;
  }

  lemma ConfigChangesLedger(s: State, t: State, p: Pid)
    requires Inv(s) && ConfigChanges(s, t, p)
    ensures LedgerOk(t)
  {
    hide WellFormed; hide NewClient; hide ProcOk; hide ServerOk; hide WalOk; hide LeasesOk; hide CacheOk; hide Carries;
    forall i | i in t.aap.live
      ensures i in t.ledger && AnsweredFor(t, i)
    {
      assert AnsweredFor(s, i);
    }
  }

  lemma ConfigChangesFrame(s: State, t: State, p: Pid)
    requires Inv(s) && ConfigChanges(s, t, p)
    ensures Frame(s, t, p)
  {
    hide WellFormed; hide NewClient; hide ProcOk; hide ServerOk; hide WalOk; hide LeasesOk; hide CacheOk;
    hide AnsweredFor; hide LedgerOk;
  }

  lemma ConfigChangesKeeps(s: State, t: State, p: Pid)
    requires Inv(s) && ConfigChanges(s, t, p) && p in t.procs && ProcOk(t, p, t.procs[p])
    ensures Inv(t)
  {
    hide Inv; hide Frame; hide ProcOk; hide ServerOk; hide WalOk; hide LeasesOk; hide LedgerOk; hide LocksOk;
    hide CacheOk; hide AnsweredFor; hide WellFormed;
    ConfigChangesRecords(s, t, p);
    ConfigChangesLedger(s, t, p);
    ConfigChangesFrame(s, t, p);
    Assemble(s, t, p);
  }

  // ----- reset()

  ghost predicate Resets(s: State, t: State, p: Pid) {
    && t == s.(client := None, settled := s.version, procs := t.procs, configLock := t.configLock)
    && SameOthers(s, t, p) && StillCarries(s, t, p)
    && s.lock == None && s.configLock == Some(p)
    && (t.configLock == None || (t.configLock == Some(p) && p in t.procs && t.procs[p].Rotate?))
  }

  lemma ResetsShared(s: State, t: State, p: Pid)
    requires Inv(s) && Resets(s, t, p)
    ensures SharedOk(t)
  {
    hide WellFormed; hide NewClient; hide ProcOk; hide ServerOk;
    forall id | id in t.aap.live
      ensures id in t.ledger && AnsweredFor(t, id)
    {
      assert AnsweredFor(s, id);
    }
  }

  lemma ResetsFrame(s: State, t: State, p: Pid)
    requires Inv(s) && Resets(s, t, p)
    ensures Frame(s, t, p)
  {
    hide WellFormed; hide NewClient; hide ProcOk; hide ServerOk; hide Carries; hide AnsweredFor; hide CachedOk;
  }

  lemma ResetsKeeps(s: State, t: State, p: Pid)
    requires Inv(s) && Resets(s, t, p) && (p in t.procs ==> ProcOk(t, p, t.procs[p]))
    ensures Inv(t)
  {
    hide Inv; hide SharedOk; hide Frame; hide ProcOk; hide Resets;
    ResetsShared(s, t, p);
    ResetsFrame(s, t, p);
    Assemble(s, t, p);
  }

  // ----- config/rotate-root

  lemma RootFacts(s: State)
    requires Inv(s)
    ensures RootOk(s)
    ensures s.ledger.Keys == s.aap.tokens.Keys
  {
  }

  lemma LoadRootStepKeeps(s: State, p: Pid, e: Event)
    requires Inv(s) && p in s.procs && s.procs[p] == Rotate(LoadRoot)
    ensures Inv(LoadRootStep(s, p, e))
  {
    hide Inv; hide WellFormed; hide NewClient;
    Knows(s, p);
    var t := LoadRootStep(s, p, e);
    if t != s { HolderMovesKeeps(s, t, p); }
  }

  lemma MintRootOwn(s: State, p: Pid, config: Config, e: Event)
    requires Inv(s) && p in s.procs && s.procs[p] == Rotate(MintRoot(config))
    ensures s.configLock == Some(p)
    ensures var t := MintRootStep(s, p, config, e); t != s && p in t.procs ==> ProcOk(t, p, t.procs[p])
  {
    hide WellFormed; hide NewClient; hide IdentityOf; hide WalOk; hide LeasesOk; hide LocksOk; hide CacheOk;
    assert ProcOk(s, p, s.procs[p]);
  }

  lemma MintedRootKeeps(s: State, p: Pid, config: Config, e: Event)
    requires Inv(s) && p in s.procs && s.procs[p] == Rotate(MintRoot(config)) && e.PostReplied?
    requires NewClient(s.env, config).Ok? && Creates(s.aap, AdminAuth(s.env, config), e.post)
    ensures Inv(MintRootStep(s, p, config, e))
  {
    hide Inv; hide WellFormed; hide NewClient; hide IdentityOf; hide ServerOk; hide ProcOk;
    MintRootOwn(s, p, config, e);
    ServerIsOk(s);
    LocksHeld(s, p);
    var t := MintRootStep(s, p, config, e);
    PostKeepsServer(s.aap, s.markers, AdminAuth(s.env, config), ROOT_DESCRIPTION, None, e.post);
    assert s.markers + {} == s.markers;
    JustMintedKeeps(s, t, p, if Answered(e.post) then InFlight(p) else Orphan(RootPostAmbiguous));
  }

  lemma MintRootStepKeeps(s: State, p: Pid, config: Config, e: Event)
    requires Inv(s) && p in s.procs && s.procs[p] == Rotate(MintRoot(config))
    ensures Inv(MintRootStep(s, p, config, e))
  {
    hide Inv; hide WellFormed; hide NewClient; hide Creates; hide ProcOk;
    MintRootOwn(s, p, config, e);
    var t := MintRootStep(s, p, config, e);
    if t != s {
      if Creates(s.aap, AdminAuth(s.env, config), e.post) { MintedRootKeeps(s, p, config, e); }
      else { HolderMovesKeeps(s, t, p); }
    }
  }

  lemma VerifyRootStepKeeps(s: State, p: Pid, config: Config, next: Config, e: Event)
    requires Inv(s) && p in s.procs && s.procs[p] == Rotate(VerifyRoot(config, next))
    ensures Inv(VerifyRootStep(s, p, config, next, e))
  {
    hide Inv; hide WellFormed; hide NewClient; hide Works;
    Knows(s, p);
    var t := VerifyRootStep(s, p, config, next, e);
    if t != s { HolderMovesKeeps(s, t, p); }
  }

  /** Rotating the stored configuration to a fresh token it has just minted. */
  lemma PutRootStepKeeps(s: State, p: Pid, config: Config, next: Config, e: Event)
    requires Inv(s) && p in s.procs && s.procs[p] == Rotate(PutRoot(config, next))
    ensures Inv(PutRootStep(s, p, config, next, e))
  {
    hide Inv; hide WellFormed; hide NewClient;
    Knows(s, p);
    var t := PutRootStep(s, p, config, next, e);
    if e.Succeeds? { RootIsPut(s, p, config, next); } else if t != s { HolderMovesKeeps(s, t, p); }
  }

  lemma RootIsPut(s: State, p: Pid, config: Config, next: Config)
    requires Inv(s) && p in s.procs && s.procs[p] == Rotate(PutRoot(config, next))
    ensures Inv(PutRootStep(s, p, config, next, Succeeds))
  {
    hide Inv; hide ConfigChanges; hide ProcOk;
    RootChanges(s, p, config, next);
    OldRootInHand(s, p, config, next);
    ConfigChangesKeeps(s, PutRootStep(s, p, config, next, Succeeds), p);
  }

  lemma RootChanges(s: State, p: Pid, config: Config, next: Config)
    requires Inv(s) && p in s.procs && s.procs[p] == Rotate(PutRoot(config, next))
    ensures ConfigChanges(s, PutRootStep(s, p, config, next, Succeeds), p)
  {
    hide Inv; hide WellFormed; hide NewClient; hide ServerOk;
    Knows(s, p);
    RootFacts(s);
    assert s.aap.tokens[next.tokenId].secret != "" && next.tokenId > 0 by { TokenFacts(s, next.tokenId); }
    RotatedIsWellFormed(s.env, config, next.token, next.tokenId);
  }

  lemma OldRootInHand(s: State, p: Pid, config: Config, next: Config)
    requires Inv(s) && p in s.procs && s.procs[p] == Rotate(PutRoot(config, next))
    ensures var t := PutRootStep(s, p, config, next, Succeeds); p in t.procs && ProcOk(t, p, t.procs[p])
  {
    hide Inv; hide WellFormed; hide NewClient; hide ServerOk;
    Knows(s, p);
    RootFacts(s);
  }

  lemma TokenFacts(s: State, id: int)
    requires Inv(s) && id in s.aap.tokens
    ensures s.aap.tokens[id].secret != "" && id > 0
  {
  }

  /** A rotation that is about to delete a root token has it in hand and under its lock. */
  lemma InHand(s: State, p: Pid, id: int)
    requires Inv(s) && p in s.procs && s.procs[p].Rotate? && Carries(s.procs[p], id)
    requires s.procs[p].t.CleanupRoot? || s.procs[p].t.RevokeOld? || s.procs[p].t.RecordOld?
    ensures s.configLock == Some(p) && Carried(s, p, id) && IsRootToken(s, id)
  {
    hide WellFormed; hide NewClient; hide WalOk; hide LeasesOk; hide LedgerOk; hide RootOk; hide LocksOk; hide CacheOk;
    hide ServerOk;
    assert ProcOk(s, p, s.procs[p]);
  }

  lemma RootDeleteKeeps(s: State, p: Pid, auth: Auth, id: int, reply: DeleteReply)
    requires Inv(s) && p in s.procs && s.procs[p].Rotate? && Carries(s.procs[p], id)
    requires s.procs[p].t.CleanupRoot? || s.procs[p].t.RevokeOld?
    ensures Inv(DeleteFrom(s, auth, id, reply))
  {
    hide Inv; hide WellFormed; hide MayDelete;
    InHand(s, p, id);
    Knows(s, p);
    Agrees(s, id);
    LocksHeld(s, p);
    OneToken(s, DeleteFrom(s, auth, id, reply), p, id);
  }

  lemma CleanupRootStepKeeps(s: State, p: Pid, config: Config, id: int, e: Event)
    requires Inv(s) && p in s.procs && s.procs[p] == Rotate(CleanupRoot(config, id))
    ensures Inv(CleanupRootStep(s, p, config, id, e))
  {
    hide Inv; hide WellFormed; hide NewClient; hide MayDelete; hide ProcOk;
    var t := CleanupRootStep(s, p, config, id, e);
    if t != s {
      var s1 := DeleteFrom(s, AdminAuth(s.env, config), id, e.delete);
      RootDeleteKeeps(s, p, AdminAuth(s.env, config), id, e.delete);
      InHand(s1, p, id);
      Agrees(s1, id);
      LocksHeld(s1, p);
      OneToken(s1, t, p, id);
    }
  }

  lemma RevokeOldStepKeeps(s: State, p: Pid, oldId: int, next: Config, e: Event)
    requires Inv(s) && p in s.procs && s.procs[p] == Rotate(RevokeOld(oldId, next))
    ensures Inv(RevokeOldStep(s, p, oldId, next, e))
  {
    hide Inv; hide WellFormed; hide NewClient; hide MayDelete;
    var t := RevokeOldStep(s, p, oldId, next, e);
    if t != s {
      var s1 := DeleteFrom(s, AdminAuth(s.env, next), oldId, e.delete);
      RootDeleteKeeps(s, p, AdminAuth(s.env, next), oldId, e.delete);
      if DeleteConfirmed(s.aap, AdminAuth(s.env, next), oldId, e.delete) {
        OldRootGone(s1, t, p, oldId, next);
      } else {
        Knows(s1, p);
        HolderMovesKeeps(s1, t, p);
      }
    }
  }

  lemma OldRootGone(s: State, t: State, p: Pid, oldId: int, next: Config)
    requires Inv(s) && p in s.procs && s.procs[p] == Rotate(RevokeOld(oldId, next)) && oldId !in s.aap.live
    requires t == Unlock(Own(s, oldId, Gone(None)), p)
    ensures Inv(t)
  {
    hide Inv; hide WellFormed; hide NewClient; hide ProcOk;
    InHand(s, p, oldId);
    Agrees(s, oldId);
    LocksHeld(s, p);
    OneToken(s, t, p, oldId);
  }

  lemma RecordOldStepKeeps(s: State, p: Pid, oldId: int, next: Config, e: Event)
    requires Inv(s) && p in s.procs && s.procs[p] == Rotate(RecordOld(oldId, next))
    ensures Inv(RecordOldStep(s, p, oldId, next, e))
  {
    if e.Succeeds? { OldRootRecorded(s, p, oldId, next); } else if e.Fails? { OldRootAbandoned(s, p, oldId, next); }
  }

  lemma OldRootRecorded(s: State, p: Pid, oldId: int, next: Config)
    requires Inv(s) && p in s.procs && s.procs[p] == Rotate(RecordOld(oldId, next))
    ensures Inv(RecordOldStep(s, p, oldId, next, Succeeds))
  {
    hide Inv; hide WellFormed; hide NewClient; hide ProcOk;
    InHand(s, p, oldId);
    Agrees(s, oldId);
    LocksHeld(s, p);
    assert WellFormed(s.env, next) by { RecordsNext(s, p, oldId, next); }
    OneToken(s, RecordOldStep(s, p, oldId, next, Succeeds), p, oldId);
  }

  lemma OldRootAbandoned(s: State, p: Pid, oldId: int, next: Config)
    requires Inv(s) && p in s.procs && s.procs[p] == Rotate(RecordOld(oldId, next))
    ensures Inv(RecordOldStep(s, p, oldId, next, Fails))
  {
    hide Inv; hide WellFormed; hide NewClient; hide ProcOk;
    InHand(s, p, oldId);
    Agrees(s, oldId);
    LocksHeld(s, p);
    OneToken(s, RecordOldStep(s, p, oldId, next, Fails), p, oldId);
  }

  lemma RecordsNext(s: State, p: Pid, oldId: int, next: Config)
    requires Inv(s) && p in s.procs && s.procs[p] == Rotate(RecordOld(oldId, next))
    ensures WellFormed(s.env, next)
  {
    hide WellFormed; hide WalOk; hide LeasesOk; hide LedgerOk; hide LocksOk; hide CacheOk; hide ServerOk;
    assert ProcOk(s, p, s.procs[p]);
  }

  lemma ResetRootStepKeeps(s: State, p: Pid, oldId: int, next: Config, e: Event)
    requires Inv(s) && p in s.procs && s.procs[p] == Rotate(ResetRoot(oldId, next))
    ensures Inv(ResetRootStep(s, p, oldId, next, e))
  {
    hide Inv; hide WellFormed; hide NewClient;
    Knows(s, p);
    var t := ResetRootStep(s, p, oldId, next, e);
    if t != s { ResetsKeeps(s, t, p); }
  }

  // ----- config writes and deletes

  lemma MergeStepKeeps(s: State, p: Pid, create: bool, fields: Fields, e: Event)
    requires Inv(s) && p in s.procs && s.procs[p] == Write(Merge(create, fields))
    ensures Inv(MergeStep(s, p, create, fields, e))
  {
    hide Inv; hide WellFormed; hide NewClient; hide Accept;
    Knows(s, p);
    StoredIsWellFormed(s);
    if Accept(s.env, s.config, create, fields).Ok? { AcceptedIsWellFormed(s.env, s.config, create, fields); }
    var t := MergeStep(s, p, create, fields, e);
    if t != s { HolderMovesKeeps(s, t, p); }
  }

  lemma ProbeStepKeeps(s: State, p: Pid, config: Config, e: Event)
    requires Inv(s) && p in s.procs && s.procs[p] == Write(Probe(config))
    ensures Inv(ProbeStep(s, p, config, e))
  {
    hide Inv; hide WellFormed; hide NewClient; hide Works;
    Knows(s, p);
    var t := ProbeStep(s, p, config, e);
    if t != s { HolderMovesKeeps(s, t, p); }
  }

  lemma PutConfigStepKeeps(s: State, p: Pid, config: Config, e: Event)
    requires Inv(s) && p in s.procs && s.procs[p] == Write(PutConfig(config))
    ensures Inv(PutConfigStep(s, p, config, e))
  {
    hide Inv; hide WellFormed; hide NewClient;
    Knows(s, p);
    RootFacts(s);
    var t := PutConfigStep(s, p, config, e);
    if e.Succeeds? { ConfigChangesKeeps(s, t, p); } else if t != s { HolderMovesKeeps(s, t, p); }
  }

  lemma RemoveStepKeeps(s: State, p: Pid, e: Event)
    requires Inv(s) && p in s.procs && s.procs[p] == Write(Remove)
    ensures Inv(RemoveStep(s, p, e))
  {
    hide Inv; hide WellFormed; hide NewClient;
    Knows(s, p);
    RootFacts(s);
    var t := RemoveStep(s, p, e);
    if e.Succeeds? { ConfigChangesKeeps(s, t, p); } else if t != s { HolderMovesKeeps(s, t, p); }
  }

  lemma ResetClientStepKeeps(s: State, p: Pid, e: Event)
    requires Inv(s) && p in s.procs && s.procs[p] == Write(ResetClient)
    ensures Inv(ResetClientStep(s, p, e))
  {
    hide Inv; hide WellFormed; hide NewClient;
    Knows(s, p);
    var t := ResetClientStep(s, p, e);
    if t != s { ResetsKeeps(s, t, p); }
  }
}
