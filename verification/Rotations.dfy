/** Revocability across rotations: while operators leave the configuration alone, the engine keeps acting as
    one identity, so every lease and WAL entry can still be revoked, however dead its snapshot is. */
module Rotations {
  import opened Wrappers
  import opened Client
  import opened ConfigWrite
  import opened Aap
  import opened Protocol
  import opened Invariant
  import opened StepKinds
  import opened Lifecycle
  import opened Ownership
  import opened Effects
  import opened Revocation

  /** The stored credential works and belongs to identity i; an operator supplied it, or AAP issued it under
      the stored id; and a rotation in flight has minted its new token as i too. */
  ghost predicate RunsAs(s: State, i: int) {
    && ActsAs(s, i)
    && (forall q :: q in s.procs ==> !s.procs[q].Write?)
    && (forall q :: q in s.procs && HoldsNew(s.procs[q]) ==>
          s.procs[q].t.next.tokenId in s.aap.tokens && s.aap.tokens[s.procs[q].t.next.tokenId].owner == i)
  }

  ghost predicate ActsAs(s: State, i: int) {
    && s.config.Some? && NewClient(s.env, s.config.value).Ok?
    && var auth := AdminAuth(s.env, s.config.value);
       IdentityOf(s.aap, auth) == Some(i) && (auth.Bearer? && s.config.value.tokenId <= 0 ==> auth.token !in s.aap.secrets)
  }

  /** With the same configuration, the identity stays whatever else AAP mints or deletes. */
  lemma IdentityStays(s: State, t: State, i: int)
    requires Inv(s) && Inv(t) && ActsAs(s, i) && t.env == s.env && t.config == s.config && Grows(s.aap, t.aap)
    ensures ActsAs(t, i)
  {
    hide Inv; hide NewClient; hide WellFormed;
    if s.config.value.tokenId > 0 {
      RootWorks(s);
      RootWorks(t);
      SecretsKnown(s, s.config.value.tokenId);
      SecretsKnown(t, s.config.value.tokenId);
    }
  }

  lemma SecretsKnown(s: State, id: int)
    requires Inv(s) && id in s.aap.tokens
    ensures s.aap.tokens[id].secret in s.aap.secrets && s.aap.secrets[s.aap.tokens[id].secret] == id
  {
  }

  /** A rotation's write installs the token it minted for this identity. */
  lemma RotatedIdentity(s: State, p: Pid, r: RotatePc, e: Event, i: int)
    requires Inv(s) && p in s.procs && s.procs[p] == Rotate(r) && r.PutRoot? && RunsAs(s, i)
    requires Inv(RotateStep(s, p, r, e)) && RotateStep(s, p, r, e).config != s.config
    ensures ActsAs(RotateStep(s, p, r, e), i)
  {
    hide Inv; hide NewClient; hide WellFormed; hide Grows;
    var t := RotateStep(s, p, r, e);
    Knows(s, p);
    TokensArePositive(s);
    RotateGrows(s, p, r, e);
    RootWorks(t);
    SecretsKnown(t, r.next.tokenId);
    assert HoldsNew(s.procs[p]);
  }

  /** A root token is minted by the stored credential, so it belongs to the stored credential's identity. */
  lemma MintedIdentity(s: State, p: Pid, config: Config, e: Event, i: int)
    requires Inv(s) && p in s.procs && s.procs[p] == Rotate(MintRoot(config)) && ActsAs(s, i)
    requires s.aap.nextId in MintRootStep(s, p, config, e).aap.live
    ensures s.aap.nextId in MintRootStep(s, p, config, e).aap.tokens
    ensures MintRootStep(s, p, config, e).aap.tokens[s.aap.nextId].owner == i
  {
    hide Inv; hide NewClient; hide IdentityOf;
    Knows(s, p);
    NextIdIsNew(s);
    LiveAreKnown(s);
  }

  lemma LiveAreKnown(s: State)
    requires Inv(s)
    ensures s.aap.live <= s.aap.tokens.Keys
  {
  }

  lemma NewRootIdentity(s: State, a: Action, i: int, q: Pid)
    requires Inv(s) && RunsAs(s, i) && Undisturbed(a) && q in Next(s, a).procs && HoldsNew(Next(s, a).procs[q])
    ensures var t := Next(s, a);
            t.procs[q].t.next.tokenId in t.aap.tokens && t.aap.tokens[t.procs[q].t.next.tokenId].owner == i
  {
    hide Inv; hide CredsStep; hide RevokeStep; hide WriteStep; hide CrashStep; hide Start; hide Grows; hide ActsAs;
    hide LoadRootStep; hide MintRootStep; hide VerifyRootStep; hide PutRootStep; hide CleanupRootStep;
    hide ResetRootStep; hide RevokeOldStep; hide RecordOldStep;
    StepMoves(s, a);
    NextKeepsTokens(s, a);
    if !HoldsNew(s.procs[q]) {
      assert s.procs[q].t.MintRoot?;
      MintMovesAlone(s, a, q);
      MintedIdentity(s, q, s.procs[q].t.config, a.e, i);
    }
  }

  /** A rotation leaves its mint by its own step only. */
  lemma MintMovesAlone(s: State, a: Action, q: Pid)
    requires Inv(s) && q in s.procs && s.procs[q].Rotate? && s.procs[q].t.MintRoot? && q in Next(s, a).procs
        && HoldsNew(Next(s, a).procs[q])
    requires Undisturbed(a) && (forall r :: r in s.procs ==> !s.procs[r].Write?)
    ensures a.Act? && a.p == q && Next(s, a) == MintRootStep(s, q, s.procs[q].t.config, a.e)
  {
    hide Inv; hide NewClient; hide Delete; hide DeleteConfirmed; hide Works; hide Creates; hide Post; hide TargetOf;
    hide Accept; hide CredsStep; hide RevokeStep; hide WriteStep; hide LoadRootStep; hide MintRootStep;
    hide VerifyRootStep; hide PutRootStep; hide CleanupRootStep; hide ResetRootStep; hide RevokeOldStep;
    hide RecordOldStep;
    if a.Act? && a.p in s.procs {
      match s.procs[a.p]
      case Creds(c) => CredsGrows(s, a.p, c, a.e);
      case Revoke(src, r) => RevokeGrows(s, a.p, src, r, a.e);
      case Rotate(_) => OneRotation(s, a.p, q);
    }
  }

  lemma OneRotation(s: State, p: Pid, q: Pid)
    requires Inv(s) && p in s.procs && s.procs[p].Rotate? && q in s.procs && s.procs[q].Rotate?
    ensures p == q
  {
    hide WellFormed; hide NewClient; hide ServerOk; hide WalOk; hide LeasesOk; hide RootOk; hide LedgerOk; hide LocksOk;
    hide CacheOk;
    assert ProcOk(s, p, s.procs[p]) && ProcOk(s, q, s.procs[q]);
  }

  /** Every step but an operator's keeps the identity the engine runs as. */
  lemma StepRunsAs(s: State, a: Action, i: int)
    requires Inv(s) && RunsAs(s, i) && Undisturbed(a)
    ensures RunsAs(Next(s, a), i)
  {
    hide Inv; hide Next; hide ActsAs; hide Grows; hide RootOpsMove;
    var t := Next(s, a);
    NextKeeps(s, a);
    StepGrows(s, a);
    StepMoves(s, a);
    NoWrites(s, t);
    if t.config == s.config { IdentityStays(s, t, i); } else { ConfigRotated(s, a, i); }
    forall q | q in t.procs && HoldsNew(t.procs[q])
      ensures t.procs[q].t.next.tokenId in t.aap.tokens && t.aap.tokens[t.procs[q].t.next.tokenId].owner == i
    {
      NewRootIdentity(s, a, i, q);
    }
  }

  lemma NoWrites(s: State, t: State)
    requires RootOpsMove(s, t) && (forall q :: q in s.procs ==> !s.procs[q].Write?)
    ensures forall q :: q in t.procs ==> !t.procs[q].Write?
  {
  }

  lemma ConfigRotated(s: State, a: Action, i: int)
    requires Inv(s) && RunsAs(s, i) && Undisturbed(a) && Next(s, a).config != s.config && Inv(Next(s, a))
    ensures ActsAs(Next(s, a), i)
  {
    hide Inv; hide CredsStep; hide RevokeStep; hide RotateStep; hide WriteStep; hide Grows; hide ActsAs; hide TargetOf;
    StepGrows(s, a);
    RotatedIdentity(s, a.p, s.procs[a.p].t, a.e, i);
  }

  lemma {:induction false} RunRunsAs(s: State, actions: seq<Action>, i: int)
    requires Inv(s) && RunsAs(s, i) && forall k :: 0 <= k < |actions| ==> Undisturbed(actions[k])
    ensures RunsAs(Run(s, actions), i) && Inv(Run(s, actions))
  {
    hide Inv; hide Next; hide RunsAs; hide Undisturbed;
    if actions != [] {
      var n := |actions| - 1;
      RunRunsAs(s, actions[..n], i);
      StepRunsAs(Run(s, actions[..n]), actions[n], i);
      NextKeeps(Run(s, actions[..n]), actions[n]);
    }
  }

  // ----- Every stored configuration of one identity

  /** In a reachable state, a stored configuration that works as i makes the engine run as i: what it names
      is an operator's credential, or the root token that a rotation minted. */
  lemma StoredRunsAs(s: State, i: int)
    requires Reachable(s) && s.config.Some? && NewClient(s.env, s.config.value).Ok?
    requires IdentityOf(s.aap, AdminAuth(s.env, s.config.value)) == Some(i)
    requires forall q :: q in s.procs ==> !s.procs[q].Write? && !s.procs[q].Rotate?
    requires var auth := AdminAuth(s.env, s.config.value);
             s.config.value.tokenId > 0 || auth.Basic? || auth.token in s.aap.operators
    ensures RunsAs(s, i)
  {
    hide Reachable; hide NewClient; hide IdentityOf; hide Inv;
    ReachableInv(s);
    OperatorsAreApart(s);
  }

  lemma OperatorsAreApart(s: State)
    requires Inv(s)
    ensures s.aap.operators.Keys !! s.aap.secrets.Keys
  {
  }

  /** And it goes on running as i for as long as operators leave configuration and credentials alone. */
  lemma ConfiguredEngineRunsAs(s: State, actions: seq<Action>, i: int)
    requires Reachable(s) && s.config.Some? && NewClient(s.env, s.config.value).Ok?
    requires IdentityOf(s.aap, AdminAuth(s.env, s.config.value)) == Some(i)
    requires forall q :: q in s.procs ==> !s.procs[q].Write? && !s.procs[q].Rotate?
    requires var auth := AdminAuth(s.env, s.config.value);
             s.config.value.tokenId > 0 || auth.Basic? || auth.token in s.aap.operators
    requires forall k :: 0 <= k < |actions| ==> Undisturbed(actions[k])
    ensures RunsAs(Run(s, actions), i)
  {
    hide Reachable; hide NewClient; hide IdentityOf; hide Inv; hide Run; hide RunsAs;
    ReachableInv(s);
    StoredRunsAs(s, i);
    RunRunsAs(s, actions, i);
  }

  // ----- Revocable after any number of rotations

  /** After any interleaving of creds requests, revocations, rollbacks, rotations and crashes, every lease and
      every WAL entry then recorded is revoked by its next undisturbed attempt. */
  lemma RevocableAfterRotations(s: State, actions: seq<Action>, i: int, p: Pid, src: Source)
    requires Reachable(s) && RunsAs(s, i) && i in s.aap.privileged
    requires forall k :: 0 <= k < |actions| ==> Undisturbed(actions[k])
    requires var t := Run(s, actions); p !in t.procs && Recorded(t, src) && t.lock == None && !ResetPending(t)
    ensures var t := Run(s, actions); Discharged(t, Run(t, RevokeScript(p, src)), src)
  {
    hide Reachable; hide Inv; hide Run; hide Next; hide Discharged; hide Recorded; hide ResetPending; hide RunsAs;
    hide RevokeScript;
    ReachableInv(s);
    RunRunsAs(s, actions, i);
    RunKeepsPrivileges(s, actions);
    var t := Run(s, actions);
    PrivilegedCanRevoke(t, i, GrantOf(t, src).id);
    RevokeSucceeds(t, p, src);
  }

  lemma PrivilegedCanRevoke(t: State, i: int, id: int)
    requires RunsAs(t, i) && i in t.aap.privileged && t.lock == None && !ResetPending(t)
    ensures CanRevoke(t, id)
  {
  }

  lemma {:induction false} RunKeepsPrivileges(s: State, actions: seq<Action>)
    requires Inv(s) && forall k :: 0 <= k < |actions| ==> Undisturbed(actions[k])
    ensures Run(s, actions).aap.privileged == s.aap.privileged
  {
    hide Inv; hide Next;
    if actions != [] {
      var n := |actions| - 1;
      RunKeepsPrivileges(s, actions[..n]);
      RunKeeps(s, actions[..n]);
      StepGrows(Run(s, actions[..n]), actions[n]);
    }
  }

  // ----- One pass of rollbacks

  function PassScript(p: Pid, order: seq<nat>): seq<Action> {
    if order == [] then [] else PassScript(p, order[..|order| - 1]) + RevokeScript(p, FromWal(order[|order| - 1]))
  }

  lemma {:induction false} RunBoth(s: State, first: seq<Action>, second: seq<Action>)
    ensures Run(s, first + second) == Run(Run(s, first), second)
  {
    hide Next;
    if second == [] {
      assert first + second == first;
    } else {
      var n := |second| - 1;
      RunBoth(s, first, second[..n]);
      assert (first + second)[..|first| + n] == first + second[..n];
    }
  }

  predicate AreEntries(s: State, order: seq<nat>) {
    && (forall k :: 0 <= k < |order| ==> order[k] in s.wal)
    && (forall j, k :: 0 <= j < k < |order| ==> order[j] != order[k])
  }

  /** The entries of this order are gone, their tokens deleted, and nothing else has changed. */
  ghost predicate RolledBack(s: State, t: State, order: seq<nat>) {
    && t == s.(aap := t.aap, wal := t.wal, ledger := t.ledger, client := t.client)
    && t.aap == s.aap.(live := t.aap.live)
    && (forall w :: w in t.wal <==> w in s.wal && w !in order)
    && (forall w :: w in t.wal ==> t.wal[w] == s.wal[w])
    && (forall id :: id in t.aap.live <==>
          id in s.aap.live && (forall k :: 0 <= k < |order| && order[k] in s.wal ==> s.wal[order[k]].id != id))
  }

  lemma ActsOn(s: State, t: State, i: int, w: nat)
    requires Inv(s) && Inv(t) && ActsAs(s, i) && Discharged(s, t, FromWal(w))
    ensures ActsAs(t, i)
  {
    hide Inv; hide ActsAs;
    LiveShrinks(s, t);
    IdentityStays(s, t, i);
  }

  lemma LiveShrinks(s: State, t: State)
    requires t.aap == s.aap.(live := t.aap.live)
    ensures Grows(s.aap, t.aap)
  {
  }

  /** One pass over the WAL against a responsive AAP, with a privileged stored credential, succeeds on every
      entry: afterwards no entry of the pass is left, no token one of them recorded is live, and every other
      token and record is untouched. */
  lemma {:induction false} RollbackConverges(s: State, p: Pid, order: seq<nat>, i: int)
    requires Inv(s) && p !in s.procs && s.lock == None && !ResetPending(s)
    requires ActsAs(s, i) && i in s.aap.privileged && AreEntries(s, order)
    ensures var t := Run(s, PassScript(p, order));
            Inv(t) && ActsAs(t, i) && RolledBack(s, t, order)
  {
    hide Inv; hide Next; hide Run; hide ActsAs; hide RevokeScript; hide ResetPending;
    if order == [] {
      RunNothing(s);
    } else {
      var n := |order| - 1;
      var w := order[n];
      var u := Run(s, PassScript(p, order[..n]));
      RollbackConverges(s, p, order[..n], i);
      RunBoth(s, PassScript(p, order[..n]), RevokeScript(p, FromWal(w)));
      SameLocks(s, u);
      ActorCanRevoke(u, i, u.wal[w].id);
      RevokeSucceeds(u, p, FromWal(w));
      RunKeeps(u, RevokeScript(p, FromWal(w)));
      var t := Run(u, RevokeScript(p, FromWal(w)));
      ActsOn(u, t, i, w);
      RolledBackOneMore(s, u, t, order, n);
    }
  }

  lemma SameLocks(s: State, u: State)
    requires u == s.(aap := u.aap, wal := u.wal, ledger := u.ledger, client := u.client)
    ensures ResetPending(u) <==> ResetPending(s)
  {
  }

  lemma ActorCanRevoke(t: State, i: int, id: int)
    requires ActsAs(t, i) && i in t.aap.privileged && t.lock == None && !ResetPending(t)
    ensures CanRevoke(t, id)
  {
  }

  lemma RolledBackOneMore(s: State, u: State, t: State, order: seq<nat>, n: nat)
    requires n == |order| - 1 && AreEntries(s, order) && RolledBack(s, u, order[..n])
        && Discharged(u, t, FromWal(order[n]))
    ensures RolledBack(s, t, order)
  {
    assert order == order[..n] + [order[n]];
    assert t == s.(aap := t.aap, wal := t.wal, ledger := t.ledger, client := t.client);
  }

  /** A pass over all entries leaves the WAL empty, and running rollbacks or the lease's revocation again
      deletes nothing more. */
  lemma FullPassEmptiesWal(s: State, p: Pid, order: seq<nat>, i: int)
    requires Inv(s) && p !in s.procs && s.lock == None && !ResetPending(s)
    requires ActsAs(s, i) && i in s.aap.privileged && AreEntries(s, order) && (forall w :: w in s.wal ==> w in order)
    ensures var t := Run(s, PassScript(p, order));
            && t.wal == map[]
            && (forall w :: w in s.wal ==> s.wal[w].id !in t.aap.live)
            && (forall auth, w, reply :: w in s.wal ==> Delete(t.aap, auth, s.wal[w].id, reply) == t.aap)
  {
    hide Inv; hide Run; hide PassScript; hide ActsAs; hide ResetPending;
    RollbackConverges(s, p, order, i);
    var t := Run(s, PassScript(p, order));
    forall w | w in s.wal
      ensures s.wal[w].id !in t.aap.live
    {
      var k :| 0 <= k < |order| && order[k] == w;
    }
  }

  // ----- What a concurrent rotation can still do to one attempt

  /** The fallback DELETE, answered as AAP answers it, returns nil if and only if the client that getClient
      handed out may still delete the token at that moment; for a privileged identity that is while its
      credential works. So a rotation that commits in between makes this attempt fail, with the lease kept. */
  lemma FallbackSucceedsIff(s: State, p: Pid, src: Source, id: int, since: nat, k: Cached)
    requires Inv(s) && p in s.procs && s.procs[p] == Revoke(src, ByCurrent(id, since, k))
    ensures var t := Next(s, Act(p, DeleteReplied(Deleted)));
            && (p in t.procs && t.procs[p] == Revoke(src, Revoked(id)) <==> MayDelete(s.aap, k.client.auth, id))
            && (p !in t.procs <==> !MayDelete(s.aap, k.client.auth, id))
            && (Recorded(s, src) ==> Recorded(t, src))
            && (k.version == s.version && (exists i :: ActsAs(s, i) && i in s.aap.privileged) ==> MayDelete(s.aap, k.client.auth, id))
  {
    hide Inv; hide NewClient; hide MayDelete;
    Knows(s, p);
    if k.version == s.version && exists i :: ActsAs(s, i) && i in s.aap.privileged {
      var i :| ActsAs(s, i) && i in s.aap.privileged;
      ActorMayDelete(s, i, id);
    }
  }

  lemma ActorMayDelete(s: State, i: int, id: int)
    requires ActsAs(s, i) && i in s.aap.privileged
    ensures MayDelete(s.aap, AdminAuth(s.env, s.config.value), id)
  {
  }
}
