/** The kinds of step an operation takes, and that each keeps the invariant: moving on, touching one
    token and its records, deleting a retired token. */
module StepKinds {
  import opened Wrappers
  import opened Client
  import opened ConfigWrite
  import opened Marker
  import opened Aap
  import opened Protocol
  import opened Invariant

  lemma Knows(s: State, p: Pid)
    requires Inv(s) && p in s.procs
    ensures ProcOk(s, p, s.procs[p])
  {
  }

  lemma LocksHeld(s: State, p: Pid)
    requires Inv(s) && p in s.procs
    ensures s.lock == Some(p) ==> HoldsClientLock(s.procs[p])
    ensures s.configLock == Some(p) ==> s.procs[p].Rotate? || s.procs[p].Write?
  {
  }

  lemma ServerIsOk(s: State)
    requires Inv(s)
    ensures ServerOk(s.aap, s.markers)
  {
  }

  lemma StoredIsWellFormed(s: State)
    requires Inv(s)
    ensures s.config.Some? ==> WellFormed(s.env, s.config.value) && NewClient(s.env, s.config.value).Ok?
  {
  }

  ghost predicate SameOthers(s: State, t: State, p: Pid) {
    forall q :: q != p ==> (q in s.procs <==> q in t.procs) && (q in s.procs ==> t.procs[q] == s.procs[q])
  }

  ghost predicate StillCarries(s: State, t: State, p: Pid) {
    p in s.procs && forall id :: Carries(s.procs[p], id) && id in t.aap.live ==> p in t.procs && Carries(t.procs[p], id)
  }

  lemma MovesShared(s: State, t: State, p: Pid)
    requires Inv(s) && SameOthers(s, t, p) && StillCarries(s, t, p)
    requires s.lock != Some(p) && s.configLock != Some(p) && t == s.(procs := t.procs)
    ensures SharedOk(t)
  {
    hide WellFormed; hide NewClient; hide ServerOk; hide ProcOk;
  }

  lemma MovesFrame(s: State, t: State, p: Pid)
    requires SameOthers(s, t, p) && t == s.(procs := t.procs)
    ensures Frame(s, t, p)
  {
  }

  /** A step that only moves operation p, which carries nothing it has not kept carrying. */
  lemma Moves(s: State, t: State, p: Pid)
    requires Inv(s) && SameOthers(s, t, p) && StillCarries(s, t, p)
    requires t == s.(procs := t.procs)
    requires (s.procs[p].Creds? || s.procs[p].Revoke?) && !HoldsClientLock(s.procs[p])
    requires p in t.procs ==> ProcOk(t, p, t.procs[p])
    ensures Inv(t)
  {
    hide Inv; hide SharedOk; hide ProcOk; hide Frame; hide Carries;
    LocksHeld(s, p);
    MovesShared(s, t, p);
    MovesFrame(s, t, p);
    Assemble(s, t, p);
  }

  // ----- Steps that touch one token

  /** Only operation p, token id and the records of that token change. */
  ghost predicate Local(s: State, t: State, p: Pid, id: int) {
    && t == s.(aap := t.aap, wal := t.wal, nextWal := t.nextWal, leases := t.leases, nextLease := t.nextLease,
               ledger := t.ledger, procs := t.procs, lock := t.lock, configLock := t.configLock)
    && t.aap == s.aap.(live := t.aap.live) && s.aap.live - {id} <= t.aap.live <= s.aap.live
    && SameOthers(s, t, p)
    && id in s.ledger && t.ledger == s.ledger[id := if id in t.ledger then t.ledger[id] else Root]
    && LocalWal(s, t, id) && LocalLeases(s, t, id)
  }

  ghost predicate LocalWal(s: State, t: State, id: int) {
    && s.nextWal <= t.nextWal
    && (forall w :: w in t.wal ==>
          || (w in s.wal && t.wal[w] == s.wal[w])
          || (w == s.nextWal < t.nextWal && t.wal[w].id == id && WellFormed(s.env, t.wal[w].config)))
    && (forall w :: w in s.wal && w !in t.wal ==> s.wal[w].id == id)
  }

  ghost predicate LocalLeases(s: State, t: State, id: int) {
    && s.nextLease <= t.nextLease
    && (forall l :: l in t.leases ==>
          || (l in s.leases && t.leases[l] == s.leases[l])
          || (l == s.nextLease < t.nextLease && t.leases[l].grant.id == id
              && IsMintedForRequest(s, id) && WellFormed(s.env, t.leases[l].grant.config)))
    && (forall l :: l in s.leases && l !in t.leases ==> s.leases[l].grant.id == id)
  }

  /** The token's new owner holds it, and the old one gave it up of its own accord. */
  ghost predicate Transferred(s: State, t: State, p: Pid, id: int) {
    && id in s.ledger && id in t.ledger && s.ledger[id] != Root
    && (forall w :: w in t.wal && t.wal[w].id == id ==> t.ledger[id].InWal? && t.ledger[id].w == w)
    && (forall l :: l in t.leases && t.leases[l].grant.id == id ==> t.ledger[id] == InLease(l))
    && (id in t.aap.live ==> AnsweredFor(t, id))
    && (s.ledger[id].InFlight? ==> s.ledger[id].p == p)
    && ((s.ledger[id].InWal? || s.ledger[id].Gone?) && s.ledger[id].holder.Some? && s.ledger[id].holder.value != p ==>
          || (t.ledger[id] == s.ledger[id] && t.wal == s.wal)
          || (s.ledger[id].InWal? && t.ledger[id] == Gone(s.ledger[id].holder) && id !in t.aap.live
              && s.ledger[id].w !in t.wal))
    && (Retired(s, id) ==> Retired(t, id))
  }

  /** Locks change hands only by p letting go, and not between a configuration change and its reset. */
  ghost predicate LetsGo(s: State, t: State, p: Pid, id: int) {
    && p in s.procs
    && (t.lock == s.lock || (s.lock == Some(p) && t.lock == None))
    && (t.lock == Some(p) ==> p in t.procs && HoldsClientLock(t.procs[p]))
    && (t.configLock == s.configLock || (s.configLock == Some(p) && t.configLock == None))
    && (t.configLock == Some(p) ==> p in t.procs && (t.procs[p].Rotate? || t.procs[p].Write?))
    && !(s.procs[p].Rotate? && s.procs[p].t.ResetRoot?) && !(s.procs[p].Write? && s.procs[p].w.ResetClient?)
    && (forall i :: i != id && Carries(s.procs[p], i) ==> p in t.procs && Carries(t.procs[p], i))
  }

  lemma LocalRecords(s: State, t: State, p: Pid, id: int)
    requires Inv(s) && Local(s, t, p, id) && Transferred(s, t, p, id)
    ensures WalOk(t) && LeasesOk(t)
  {
    hide WellFormed; hide NewClient; hide ProcOk; hide AnsweredFor; hide Carries; hide Retired;
    hide ServerOk; hide LedgerOk; hide RootOk; hide LocksOk; hide CacheOk;
  }

  lemma LocalRoot(s: State, t: State, p: Pid, id: int)
    requires Inv(s) && Local(s, t, p, id) && Transferred(s, t, p, id)
    ensures ServerOk(t.aap, t.markers) && RootOk(t)
  {
    hide WellFormed; hide NewClient; hide ProcOk; hide AnsweredFor; hide Carries; hide Retired;
    hide WalOk; hide LeasesOk; hide LedgerOk; hide LocksOk; hide CacheOk;
  }

  lemma LocalLedger(s: State, t: State, p: Pid, id: int)
    requires Inv(s) && Local(s, t, p, id) && Transferred(s, t, p, id) && LetsGo(s, t, p, id)
    ensures LedgerOk(t) && LocksOk(t) && CacheOk(t)
  {
    hide WellFormed; hide NewClient; hide ProcOk; hide ServerOk; hide Retired; hide RootOk;
    forall i | i in t.aap.live
      ensures i in t.ledger && AnsweredFor(t, i)
    {
      assert i in s.ledger && AnsweredFor(s, i);
    }
  }

  lemma LocalFrameLedger(s: State, t: State, p: Pid, id: int)
    requires Inv(s) && Local(s, t, p, id) && Transferred(s, t, p, id)
    ensures FrameServer(s, t) && FrameLedger(s, t, p)
  {
    hide WellFormed; hide NewClient; hide ProcOk; hide AnsweredFor; hide Carries;
    hide ServerOk; hide WalOk; hide LeasesOk; hide LedgerOk; hide RootOk; hide LocksOk; hide CacheOk;
  }

  lemma LocalFrameRecords(s: State, t: State, p: Pid, id: int)
    requires Inv(s) && Local(s, t, p, id) && Transferred(s, t, p, id) && LetsGo(s, t, p, id)
    ensures FrameRecords(s, t, p) && FrameLocks(s, t, p)
  {
    hide WellFormed; hide NewClient; hide ProcOk; hide AnsweredFor; hide Carries; hide Retired;
    hide ServerOk; hide LeasesOk; hide LedgerOk; hide RootOk; hide LocksOk; hide CacheOk;
  }

  lemma OneToken(s: State, t: State, p: Pid, id: int)
    requires Inv(s) && Local(s, t, p, id) && Transferred(s, t, p, id) && LetsGo(s, t, p, id)
    requires p in t.procs ==> ProcOk(t, p, t.procs[p])
    ensures Inv(t)
  {
    hide Inv; hide ProcOk; hide Local; hide FrameServer; hide FrameLedger; hide FrameRecords; hide FrameLocks;
    hide Transferred; hide LetsGo; hide ServerOk; hide WalOk; hide LeasesOk; hide RootOk; hide LedgerOk; hide LocksOk;
    hide CacheOk;
    LocalRecords(s, t, p, id);
    LocalRoot(s, t, p, id);
    LocalLedger(s, t, p, id);
    LocalFrameLedger(s, t, p, id);
    LocalFrameRecords(s, t, p, id);
    assert Frame(s, t, p);
    Assemble(s, t, p);
  }

  /** What the records say about one token. */
  lemma Agrees(s: State, id: int)
    requires Inv(s)
    ensures forall w :: w in s.wal ==> w < s.nextWal
    ensures forall w :: w in s.wal && s.wal[w].id == id ==> id in s.ledger && s.ledger[id].InWal? && s.ledger[id].w == w
    ensures forall l :: l in s.leases ==> l < s.nextLease
    ensures forall l :: l in s.leases && s.leases[l].grant.id == id ==> id in s.ledger && s.ledger[id] == InLease(l)
    ensures id in s.aap.live ==> id in s.ledger && AnsweredFor(s, id)
  {
    hide WellFormed; hide NewClient; hide ServerOk; hide ProcOk; hide LocksOk; hide CacheOk; hide AnsweredFor;
  }

  // ----- Deletions of retired tokens

  ghost predicate Shrunk(s: State, t: State, id: int) {
    && t == s.(aap := s.aap.(live := t.aap.live))
    && s.aap.live - {id} <= t.aap.live <= s.aap.live
  }

  lemma ShrunkShared(s: State, t: State, id: int)
    requires Inv(s) && Retired(s, id) && Shrunk(s, t, id)
    ensures SharedOk(t)
  {
    hide WellFormed; hide NewClient; hide ProcOk;
  }

  lemma ShrunkFrame(s: State, t: State, id: int, p: Pid)
    requires Retired(s, id) && Shrunk(s, t, id)
    ensures Frame(s, t, p)
  {
  }

  /** Deleting a retired token, whoever does it, keeps the invariant. */
  lemma ShrunkKeeps(s: State, t: State, id: int)
    requires Inv(s) && Retired(s, id) && Shrunk(s, t, id)
    ensures Inv(t)
  {
    hide Inv; hide SharedOk; hide Frame; hide Retired;
    ShrunkShared(s, t, id);
    forall p ensures Frame(s, t, p) { ShrunkFrame(s, t, id, p); }
    Bystanders(s, t);
  }

  lemma DeleteKeeps(s: State, auth: Auth, id: int, reply: DeleteReply)
    requires Inv(s) && Retired(s, id)
    ensures Inv(DeleteFrom(s, auth, id, reply))
    ensures Shrunk(s, DeleteFrom(s, auth, id, reply), id)
    ensures DeleteConfirmed(s.aap, auth, id, reply) ==> id !in DeleteFrom(s, auth, id, reply).aap.live
  {
    hide Inv; hide MayDelete;
    ShrunkKeeps(s, DeleteFrom(s, auth, id, reply), id);
  }

  // ----- Minting

  lemma PostKeepsServer(a: Server, markers: set<string>, auth: Auth, description: string, marker: Option<string>,
      reply: PostReply)
    requires ServerOk(a, markers)
    requires match marker case None => description == ROOT_DESCRIPTION case Some(m) => m !in markers && Marked(description, m)
    ensures ServerOk(Post(a, auth, description, marker, reply), markers + if marker.Some? then {marker.value} else {})
  {
    hide Marked;
  }

  /** Operation p has just minted the next id, and answers for it or has lost it. */
  ghost predicate JustMinted(s: State, t: State, p: Pid, o: Owner) {
    && t == s.(aap := t.aap, markers := t.markers, ledger := s.ledger[s.aap.nextId := o], procs := t.procs,
        configLock := t.configLock)
    && t.aap == s.aap.(nextId := s.aap.nextId + 1, live := s.aap.live + {s.aap.nextId}, secrets := t.aap.secrets,
        tokens := t.aap.tokens)
    && s.aap.nextId in t.aap.tokens && t.aap.tokens == s.aap.tokens[s.aap.nextId := t.aap.tokens[s.aap.nextId]]
    && (t.aap.tokens[s.aap.nextId].marker.Some? ==> t.aap.tokens[s.aap.nextId].marker.value !in s.markers)
    && s.markers <= t.markers && ServerOk(t.aap, t.markers)
    && (o.Orphan? || (o == InFlight(p) && p in t.procs && Carries(t.procs[p], s.aap.nextId)))
    && SameOthers(s, t, p)
  }

  lemma JustMintedRecords(s: State, t: State, p: Pid, o: Owner)
    requires Inv(s) && JustMinted(s, t, p, o)
    ensures WalOk(t) && LeasesOk(t) && RootOk(t)
  {
    hide WellFormed; hide NewClient; hide ProcOk; hide Carries; hide AnsweredFor; hide LocksOk; hide CacheOk;
  }

  lemma JustMintedLedger(s: State, t: State, p: Pid, o: Owner)
    requires Inv(s) && JustMinted(s, t, p, o) && LetsGo(s, t, p, 0)
    ensures LedgerOk(t) && LocksOk(t) && CacheOk(t)
  {
    hide WellFormed; hide NewClient; hide ProcOk; hide Carries; hide WalOk; hide LeasesOk; hide RootOk;
    forall id | id in t.aap.live
      ensures id in t.ledger && AnsweredFor(t, id)
    {
      if id != s.aap.nextId { assert AnsweredFor(s, id); }
    }
  }

  lemma JustMintedFrame(s: State, t: State, p: Pid, o: Owner)
    requires Inv(s) && JustMinted(s, t, p, o) && LetsGo(s, t, p, 0)
    ensures Frame(s, t, p)
  {
    hide WellFormed; hide NewClient; hide ProcOk; hide Carries; hide WalOk; hide LeasesOk; hide RootOk; hide LocksOk;
    hide CacheOk;
  }

  lemma ServerMinted(s: State, t: State, p: Pid, o: Owner)
    requires JustMinted(s, t, p, o)
    ensures ServerOk(t.aap, t.markers)
  {
  }

  lemma JustMintedKeeps(s: State, t: State, p: Pid, o: Owner)
    requires Inv(s) && JustMinted(s, t, p, o) && LetsGo(s, t, p, 0)
    requires p in t.procs ==> ProcOk(t, p, t.procs[p])
    ensures Inv(t)
  {
    hide Inv; hide Frame; hide ProcOk; hide JustMinted; hide LetsGo;
    hide ServerOk; hide WalOk; hide LeasesOk; hide RootOk; hide LedgerOk; hide LocksOk; hide CacheOk;
    JustMintedRecords(s, t, p, o);
    JustMintedLedger(s, t, p, o);
    assert SharedOk(t) by { ServerMinted(s, t, p, o); }
    JustMintedFrame(s, t, p, o);
    Assemble(s, t, p);
  }

  ghost predicate MarkerUsed(s: State, t: State, requestId: string) {
    t == s.(markers := s.markers + {requestId})
  }

  lemma MarkerUsedShared(s: State, t: State, requestId: string)
    requires Inv(s) && MarkerUsed(s, t, requestId)
    ensures SharedOk(t)
  {
    hide WellFormed; hide NewClient; hide ProcOk; hide Carries;
  }

  lemma MarkerUsedFrame(s: State, t: State, requestId: string, p: Pid)
    requires MarkerUsed(s, t, requestId)
    ensures Frame(s, t, p)
  {
  }

  /** Using up a request id changes nothing else. */
  lemma MarkerKeeps(s: State, t: State, requestId: string)
    requires Inv(s) && MarkerUsed(s, t, requestId)
    ensures Inv(t)
  {
    hide Inv; hide SharedOk; hide Frame;
    MarkerUsedShared(s, t, requestId);
    forall p ensures Frame(s, t, p) { MarkerUsedFrame(s, t, requestId, p); }
    Bystanders(s, t);
  }
}
