/** What a revocation achieves: against a responsive AAP it deletes exactly its own token, any number of
    rotations later; one pass of rollbacks empties the WAL; and the client it falls back to is fresh. */
module Revocation {
  import opened Wrappers
  import opened Client
  import opened Snapshot
  import opened ConfigWrite
  import opened Aap
  import opened Roles
  import opened Protocol
  import opened Invariant
  import opened StepKinds
  import opened Lifecycle

  // ----- The cached client

  /** Whenever no configuration change is waiting for its reset, the cache is empty or holds the client
      that the stored configuration builds. */
  lemma CacheIsCoherent(s: State)
    requires Reachable(s) && !ResetPending(s) && s.client.Some?
    ensures s.config.Some? && NewClient(s.env, s.config.value) == Ok(s.client.value.client)
  {
    hide Reachable; hide WellFormed; hide NewClient; hide ServerOk; hide ProcOk; hide WalOk; hide LeasesOk; hide RootOk;
    hide LedgerOk; hide LocksOk;
    ReachableInv(s);
  }

  /** A getClient that begins when no reset is pending never yields the client of an older
      configuration, however the run goes on. */
  lemma GetClientIsFresh(s: State, p: Pid, src: Source, id: int, actions: seq<Action>, since: nat, current: Cached)
    requires Reachable(s) && !ResetPending(s) && p in s.procs && s.procs[p] == Revoke(src, CheckCache(id, since))
        && since == s.settled
    requires var t := Run(s, actions);
             p in t.procs && t.procs[p] == Revoke(src, ByCurrent(id, since, current))
    ensures current.version >= s.version
    ensures var t := Run(s, actions);
            current.version == t.version ==> t.config.Some? && NewClient(t.env, t.config.value) == Ok(current.client)
  {
    hide Reachable; hide Run; hide Inv; hide NewClient;
    ReachableInv(s);
    RunKeeps(s, actions);
    Knows(Run(s, actions), p);
    SettledIsCurrent(s);
  }

  lemma SettledIsCurrent(s: State)
    requires Inv(s) && !ResetPending(s)
    ensures s.settled == s.version
  {
  }

  // ----- One revocation, undisturbed

  /** The steps of one revocation; those that find it already finished do nothing. */
  function RevokeScript(p: Pid, src: Source): seq<Action> {
    [Act(p, Begin(Revoking(src)))] + [Act(p, DeleteReplied(Deleted))] + [Act(p, Succeeds)] + [Act(p, Succeeds)]
    + [Act(p, Succeeds)] + [Act(p, Succeeds)] + [Act(p, DeleteReplied(Deleted))] + [Act(p, Succeeds)]
  }

  lemma RunOn(s: State, actions: seq<Action>, a: Action)
    ensures Run(s, actions + [a]) == Next(Run(s, actions), a)
  {
    hide Next;
    assert (actions + [a])[..|actions|] == actions;
  }

  /** The engine can revoke this token now: nobody is inside getClient, no reset is pending, and the stored
      credential may delete it. */
  ghost predicate CanRevoke(s: State, id: int) {
    && s.lock == None && !ResetPending(s) && s.config.Some? && NewClient(s.env, s.config.value).Ok?
    && MayDelete(s.aap, AdminAuth(s.env, s.config.value), id)
  }

  /** Operation p is at r; AAP has lost at most token id, and only the client lock and cache moved besides. */
  ghost predicate Underway(s: State, u: State, p: Pid, src: Source, r: RevokePc) {
    && u == s.(procs := s.procs[p := Revoke(src, r)], aap := u.aap, client := u.client, lock := u.lock)
    && u.aap == s.aap.(live := if r.Revoked? then s.aap.live - {r.id} else s.aap.live)
  }

  lemma BeginsBySnapshot(s: State, u: State, p: Pid, src: Source)
    requires Inv(s) && p !in s.procs && Recorded(s, src) && s.lock == None
    requires u == Next(Next(s, Act(p, Begin(Revoking(src)))), Act(p, DeleteReplied(Deleted)))
    ensures var id := GrantOf(s, src).id;
            u.lock == None && u.client == s.client
            && (Underway(s, u, p, src, Revoked(id)) || Underway(s, u, p, src, CheckCache(id, s.settled)))
  {
    hide Inv; hide TargetOf; hide NewClient; hide MayDelete;
    TargetIsGrant(s, src);
    var s1 := Start(s, p, Revoking(src));
    assert s1.procs[p] == Revoke(src, BySnapshot(GrantOf(s, src).id, Some(NewClient(s.env, GrantOf(s,
        src).config).value)));
  }

  /** From the first cache check to the client in hand: the stored configuration's. */
  lemma FetchesClient(s: State, u: State, p: Pid, src: Source, id: int)
    requires Inv(s) && CanRevoke(s, id) && u.lock == None && u.client == s.client
    requires Underway(s, u, p, src, CheckCache(id, s.settled))
    ensures var ok := Act(p, Succeeds);
            var v := Next(Next(Next(Next(u, ok), ok), ok), ok);
            && v.lock == None && p in v.procs && v.procs[p].Revoke? && v.procs[p].r.ByCurrent?
            && v.procs[p].r.current.client == NewClient(s.env, s.config.value).value
            && Underway(s, v, p, src, v.procs[p].r) && v.procs[p].r.id == id
  {
    hide Inv; hide WellFormed; hide NewClient; hide MayDelete;
    CacheFacts(s);
    SettledIsCurrent(s);
    var ok := Act(p, Succeeds);
    if s.client.Some? {
      assert Next(u, ok).procs[p] == Revoke(src, ByCurrent(id, s.settled, s.client.value));
    } else {
      var u1 := Next(u, ok);
      assert u1.procs[p] == Revoke(src, AwaitLock(id, s.settled));
      var u2 := Next(u1, ok);
      assert u2.procs[p] == Revoke(src, LoadClient(id, s.settled));
      var u3 := Next(u2, ok);
      assert u3.procs[p] == Revoke(src, StoreClient(id, s.settled, Cached(NewClient(s.env, s.config.value).value,
          s.version)));
    }
  }

  lemma CacheFacts(s: State)
    requires Inv(s)
    ensures s.client.Some? ==> s.settled <= s.client.value.version && CachedOk(s, s.client.value)
  {
  }

  lemma DeletesByCurrent(s: State, v: State, p: Pid, src: Source, id: int)
    requires CanRevoke(s, id) && p in v.procs && v.procs[p].Revoke? && v.procs[p].r.ByCurrent? && v.procs[p].r.id == id
    requires v.procs[p].r.current.client == NewClient(s.env, s.config.value).value
    requires Underway(s, v, p, src, v.procs[p].r)
    ensures Underway(s, Next(v, Act(p, DeleteReplied(Deleted))), p, src, Revoked(id))
    ensures Next(v, Act(p, DeleteReplied(Deleted))).lock == v.lock
  {
    hide NewClient; hide MayDelete;
  }

  /** Exactly this source is discharged and exactly its token deleted. */
  ghost predicate Discharged(s: State, t: State, src: Source) {
    && Recorded(s, src) && !Recorded(t, src)
    && t.aap == s.aap.(live := s.aap.live - {GrantOf(s, src).id})
    && t.wal == (if src.FromWal? then s.wal - {src.w} else s.wal)
    && t.leases == (if src.FromLease? then s.leases - {src.l} else s.leases)
    && t == s.(aap := t.aap, wal := t.wal, leases := t.leases, ledger := t.ledger, client := t.client)
  }

  lemma Discharges(s: State, u: State, p: Pid, src: Source)
    requires p !in s.procs && Recorded(s, src) && s.lock == None && u.lock == None
    requires Underway(s, u, p, src, Revoked(GrantOf(s, src).id))
    ensures Discharged(s, Next(u, Act(p, Succeeds)), src)
  {
    var t := Next(u, Act(p, Succeeds));
    assert t.procs == s.procs;
  }

  lemma FinishedIsQuiet(s: State, p: Pid, e: Event)
    requires p !in s.procs && !e.Begin?
    ensures Next(s, Act(p, e)) == s
  {
  }

  lemma ScriptRuns(s: State, p: Pid, src: Source)
    ensures var ok, del := Act(p, Succeeds), Act(p, DeleteReplied(Deleted));
            var u := Next(Next(s, Act(p, Begin(Revoking(src)))), del);
            var v := Next(Next(Next(Next(u, ok), ok), ok), ok);
            Run(s, RevokeScript(p, src)) == Next(Next(v, del), ok)
  {
    hide Next; hide Run;
    var ok, del := Act(p, Succeeds), Act(p, DeleteReplied(Deleted));
    var a1 := [Act(p, Begin(Revoking(src)))];
    assert Run(s, []) == s by { RunNothing(s); }
    RunOn(s, [], Act(p, Begin(Revoking(src))));
    assert [] + a1 == a1;
    RunOn(s, a1, del);
    RunOn(s, a1 + [del], ok);
    RunOn(s, a1 + [del] + [ok], ok);
    RunOn(s, a1 + [del] + [ok] + [ok], ok);
    RunOn(s, a1 + [del] + [ok] + [ok] + [ok], ok);
    RunOn(s, a1 + [del] + [ok] + [ok] + [ok] + [ok], del);
    RunOn(s, a1 + [del] + [ok] + [ok] + [ok] + [ok] + [del], ok);
  }

  lemma RunNothing(s: State)
    ensures Run(s, []) == s
  {
  }

  lemma LockIsFree(s: State, id: int)
    requires CanRevoke(s, id)
    ensures s.lock == None
  {
  }

  lemma StaysFinished(s: State, t: State, p: Pid, src: Source)
    requires p !in s.procs && Discharged(s, t, src)
    ensures var ok, del := Act(p, Succeeds), Act(p, DeleteReplied(Deleted));
            Next(Next(Next(Next(Next(t, ok), ok), ok), del), ok) == t
  {
    hide Next;
    assert t.procs == s.procs;
    FinishedIsQuiet(t, p, Succeeds);
    FinishedIsQuiet(t, p, DeleteReplied(Deleted));
  }

  /** Against a responsive AAP, revoking a lease or rolling back a WAL entry returns nil, deletes exactly its
      token and discharges exactly its record, even if the credential it was minted with is long dead. */
  lemma RevokeSucceeds(s: State, p: Pid, src: Source)
    requires Inv(s) && p !in s.procs && Recorded(s, src) && CanRevoke(s, GrantOf(s, src).id)
    ensures Discharged(s, Run(s, RevokeScript(p, src)), src)
  {
    hide Inv; hide Next; hide Run; hide CanRevoke; hide Underway; hide Discharged; hide NewClient;
    var id := GrantOf(s, src).id;
    var ok, del := Act(p, Succeeds), Act(p, DeleteReplied(Deleted));
    var u := Next(Next(s, Act(p, Begin(Revoking(src)))), del);
    assert s.lock == None by { LockIsFree(s, id); }
    BeginsBySnapshot(s, u, p, src);
    ScriptRuns(s, p, src);
    if Underway(s, u, p, src, Revoked(id)) {
      Discharges(s, u, p, src);
      StaysFinished(s, Next(u, ok), p, src);
    } else {
      FetchesClient(s, u, p, src, id);
      var v := Next(Next(Next(Next(u, ok), ok), ok), ok);
      DeletesByCurrent(s, v, p, src, id);
      Discharges(s, Next(v, del), p, src);
    }
  }
}
