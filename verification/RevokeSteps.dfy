/** Every step of a lease revocation or WAL rollback keeps the invariant. */
module RevokeSteps {
  import opened Wrappers
  import opened Client
  import opened Snapshot
  import opened ConfigWrite
  import opened Aap
  import opened Protocol
  import opened Invariant
  import opened StepKinds

  lemma BySnapshotStepKeeps(s: State, p: Pid, src: Source, id: int, snapshot: Option<AapClient>, e: Event)
    requires Inv(s) && p in s.procs && s.procs[p] == Revoke(src, BySnapshot(id, snapshot))
    ensures Inv(BySnapshotStep(s, p, src, id, snapshot, e))
  {
    hide Inv; hide WellFormed; hide NewClient; hide MayDelete;
    Knows(s, p);
    var t := BySnapshotStep(s, p, src, id, snapshot, e);
    if snapshot.None? {
      Moves(s, t, p);
    } else if t != s {
      var s1 := DeleteFrom(s, snapshot.value.auth, id, e.delete);
      DeleteKeeps(s, snapshot.value.auth, id, e.delete);
      Knows(s1, p);
      Moves(s1, t, p);
    }
  }

  // ----- The client lock and the cache

  /** A revocation moves on, takes or releases the client lock, or fills the cache. */
  ghost predicate ClientStep(s: State, t: State, p: Pid) {
    && t == s.(lock := t.lock, client := t.client, procs := t.procs) && SameOthers(s, t, p)
    && p in s.procs && s.procs[p].Revoke? && (p in t.procs ==> t.procs[p].Revoke?)
    && (t.lock == s.lock || (s.lock == None && t.lock == Some(p)) || (s.lock == Some(p) && t.lock == None))
    && (t.lock == Some(p) ==> p in t.procs && HoldsClientLock(t.procs[p]))
    && (t.client == s.client || (t.client.Some? && s.settled <= t.client.value.version && CachedOk(s, t.client.value)))
  }

  lemma ClientStepShared(s: State, t: State, p: Pid)
    requires Inv(s) && ClientStep(s, t, p)
    ensures SharedOk(t)
  {
    hide WellFormed; hide NewClient; hide ProcOk; hide ServerOk;
    forall id | id in t.aap.live
      ensures id in t.ledger && AnsweredFor(t, id)
    {
      assert AnsweredFor(s, id);
    }
  }

  lemma ClientStepFrame(s: State, t: State, p: Pid)
    requires ClientStep(s, t, p)
    ensures Frame(s, t, p)
  {
    hide CachedOk;
  }

  lemma ClientStepKeeps(s: State, t: State, p: Pid)
    requires Inv(s) && ClientStep(s, t, p) && (p in t.procs ==> ProcOk(t, p, t.procs[p]))
    ensures Inv(t)
  {
    hide Inv; hide SharedOk; hide Frame; hide ProcOk; hide ClientStep;
    ClientStepShared(s, t, p);
    ClientStepFrame(s, t, p);
    Assemble(s, t, p);
  }

  lemma CacheFacts(s: State)
    requires Inv(s)
    ensures s.settled <= s.version
    ensures s.client.Some? ==> s.settled <= s.client.value.version && CachedOk(s, s.client.value)
  {
  }

  lemma CheckCacheStepKeeps(s: State, p: Pid, src: Source, id: int, since: nat, e: Event)
    requires Inv(s) && p in s.procs && s.procs[p] == Revoke(src, CheckCache(id, since))
    ensures Inv(CheckCacheStep(s, p, src, id, since, e))
  {
    hide Inv; hide WellFormed; hide NewClient;
    Knows(s, p);
    CacheFacts(s);
    var t := CheckCacheStep(s, p, src, id, since, e);
    if t != s { ClientStepKeeps(s, t, p); }
  }

  lemma AwaitLockStepKeeps(s: State, p: Pid, src: Source, id: int, since: nat, e: Event)
    requires Inv(s) && p in s.procs && s.procs[p] == Revoke(src, AwaitLock(id, since))
    ensures Inv(AwaitLockStep(s, p, src, id, since, e))
  {
    hide Inv; hide WellFormed; hide NewClient;
    Knows(s, p);
    var t := AwaitLockStep(s, p, src, id, since, e);
    if t != s { ClientStepKeeps(s, t, p); }
  }

  lemma LoadClientStepKeeps(s: State, p: Pid, src: Source, id: int, since: nat, e: Event)
    requires Inv(s) && p in s.procs && s.procs[p] == Revoke(src, LoadClient(id, since))
    ensures Inv(LoadClientStep(s, p, src, id, since, e))
  {
    hide Inv; hide WellFormed; hide NewClient;
    Knows(s, p);
    CacheFacts(s);
    var t := LoadClientStep(s, p, src, id, since, e);
    if t != s { ClientStepKeeps(s, t, p); }
  }

  lemma StoreClientStepKeeps(s: State, p: Pid, src: Source, id: int, since: nat, built: Cached, e: Event)
    requires Inv(s) && p in s.procs && s.procs[p] == Revoke(src, StoreClient(id, since, built))
    ensures Inv(StoreClientStep(s, p, src, id, since, built, e))
  {
    hide Inv; hide WellFormed; hide NewClient;
    Knows(s, p);
    var t := StoreClientStep(s, p, src, id, since, built, e);
    if t != s { ClientStepKeeps(s, t, p); }
  }

  lemma ByCurrentStepKeeps(s: State, p: Pid, src: Source, id: int, since: nat, k: Cached, e: Event)
    requires Inv(s) && p in s.procs && s.procs[p] == Revoke(src, ByCurrent(id, since, k))
    ensures Inv(ByCurrentStep(s, p, src, id, since, k, e))
  {
    hide Inv; hide WellFormed; hide NewClient; hide MayDelete;
    Knows(s, p);
    var t := ByCurrentStep(s, p, src, id, since, k, e);
    if t != s {
      var s1 := DeleteFrom(s, k.client.auth, id, e.delete);
      DeleteKeeps(s, k.client.auth, id, e.delete);
      Knows(s1, p);
      Moves(s1, t, p);
    }
  }

  lemma DischargeKeeps(s: State, p: Pid, src: Source, id: int)
    requires Inv(s) && p in s.procs && s.procs[p] == Revoke(src, Revoked(id))
    requires match src case FromLease(l) => l in s.leases case FromWal(w) => w in s.wal
    ensures Inv(RevokedStep(s, p, src, id, Succeeds))
  {
    hide Inv; hide WellFormed;
    Knows(s, p);
    Agrees(s, id);
    LocksHeld(s, p);
    OneToken(s, RevokedStep(s, p, src, id, Succeeds), p, id);
  }

  lemma RevokedStepKeeps(s: State, p: Pid, src: Source, id: int, e: Event)
    requires Inv(s) && p in s.procs && s.procs[p] == Revoke(src, Revoked(id))
    ensures Inv(RevokedStep(s, p, src, id, e))
  {
    hide Inv; hide WellFormed;
    var t := RevokedStep(s, p, src, id, e);
    var held := match src case FromLease(l) => l in s.leases case FromWal(w) => w in s.wal;
    if e.Succeeds? && held { DischargeKeeps(s, p, src, id); } else if t != s { Moves(s, t, p); }
  }
}
