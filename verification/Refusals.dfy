/** Refused mints: what becomes of a token whose request fails a guard, loses its caller or cannot delete its WAL
    entry, in any interleaving. */
module Refusals {
  import opened Wrappers
  import opened Client
  import opened ConfigWrite
  import opened Aap
  import opened Roles
  import opened Protocol
  import opened Invariant
  import opened StepKinds
  import opened Lifecycle
  import opened Ownership
  import opened Effects
  import opened Revocation
  import opened Rotations
  import opened Issuance
  import opened Windows
  import opened Races
  import opened RaceRuns

  /** The root token that minted for this request is known, and has been revoked since. */
  predicate RootIsDead(s: State, c: Config) { c.tokenId > 0 && c.tokenId !in s.aap.live }

  /** What a run starts from: the engine acts as the privileged identity i, and so did every configuration read by
      a request in flight. */
  ghost predicate ActsFrom(s: State, actions: seq<Action>, i: int) {
    && Reachable(s) && RunsAs(s, i) && RequestsAct(s, i) && i in s.aap.privileged
    && forall k :: 0 <= k < |actions| ==> Undisturbed(actions[k])
  }

  // ----- A request under its WAL entry leaves by cleaning up

  /** A failed guard and a cancelled caller lead to the cleanup, a DeleteWAL that fails to the last resort; nothing
      else ends a request that stands under its entry. */
  lemma OnlyCleanupLeaves(s: State, p: Pid, e: Event)
    requires p in s.procs && s.procs[p].Creds? && UnderWal(s.procs[p].c)
    ensures var t := Next(s, Act(p, e));
            var c := s.procs[p].c;
            && (c.GuardApp? || c.GuardUser? || c.CheckContext? || c.Commit? ==> p in t.procs && t.procs[p].Creds?)
            && (e.Fails? && (c.GuardApp? || c.GuardUser?) ==> t.procs[p] == Creds(Undo(c.q, c.id, c.w)))
            && (e.Cancel? && c.CheckContext? ==> t.procs[p] == Creds(Undo(c.q, c.id, c.w)))
            && (e.Fails? && c.Commit? ==> t.procs[p] == Creds(UndoCommit(c.q, c.id, c.w)))
  {
    hide NewClient; hide Works; hide AfterGuardApp; hide RevokeStep; hide RotateStep; hide WriteStep; hide Start;
    hide DeleteConfirmed; hide Delete;
  }

  /** A guard passes if and only if AAP, asked with a credential that works, shows the live token with the owner, or
      the application, that the request was given; otherwise the mint is undone. */
  lemma GuardPassesIff(s: State, p: Pid)
    requires Inv(s) && p in s.procs && s.procs[p].Creds? && (s.procs[p].c.GuardApp? || s.procs[p].c.GuardUser?)
    ensures var c := s.procs[p].c;
            var t := Next(s, Act(p, Succeeds));
            && NewClient(s.env, c.q.config).Ok? && c.id in s.aap.tokens
            && (t.procs[p] != Creds(Undo(c.q, c.id, c.w)) <==>
                  && Works(s.aap, NewClient(s.env, c.q.config).value.auth) && c.id in s.aap.live
                  && (if c.GuardApp? then s.aap.tokens[c.id].application == c.q.application
                      else s.aap.tokens[c.id].owner == c.q.user))
  {
    hide Inv; hide NewClient; hide Works; hide RevokeStep; hide RotateStep; hide WriteStep; hide Start;
    UnderWalBuilds(s, p);
  }

  lemma UnderWalBuilds(s: State, p: Pid)
    requires Inv(s) && p in s.procs && s.procs[p].Creds? && UnderWal(s.procs[p].c)
    ensures NewClient(s.env, s.procs[p].c.q.config).Ok? && s.procs[p].c.id in s.aap.tokens
    ensures s.procs[p].c.UndoWal? ==> s.procs[p].c.id !in s.aap.live
    ensures s.procs[p].c.id in s.aap.live ==> s.procs[p].c.w in s.wal && s.wal[s.procs[p].c.w].id == s.procs[p].c.id
  {
    hide NewClient; hide ServerOk; hide WalOk; hide LeasesOk; hide RootOk; hide LedgerOk; hide LocksOk; hide CacheOk;
    assert ProcOk(s, p, s.procs[p]);
  }

  // ----- The DELETE of the cleanup

  lemma CleanupMayDelete(s: State, actions: seq<Action>, i: int, p: Pid)
    requires ActsFrom(s, actions, i)
    requires var u := Run(s, actions); p in u.procs && u.procs[p].Creds? && UnderWal(u.procs[p].c)
    ensures var u := Run(s, actions);
            var c := u.procs[p].c;
            && Inv(u) && NewClient(u.env, c.q.config).Ok?
            && (MayDelete(u.aap, AdminAuth(u.env, c.q.config), c.id) <==> !RootIsDead(u, c.q.config))
  {
    hide Reachable; hide Inv; hide Run; hide RunsAs; hide MayDelete; hide NewClient; hide RequestsAct;
    ReachableInv(s);
    RunRunsAs(s, actions, i);
    RunKeepsRequests(s, actions, i);
    RunKeepsPrivileges(s, actions);
    var u := Run(s, actions);
    UnderWalBuilds(u, p);
    HeldActs(u, p, i);
    var c := u.procs[p].c.q.config;
    assert HeldConfig(u.procs[p]) == Some(c);
    DeadConfigIff(u, c, i);
    MayDeleteIff(u.aap, AdminAuth(u.env, c), i, u.procs[p].c.id);
  }

  lemma UndoSteps(u: State, p: Pid, q: Request, id: int, w: nat)
    requires p in u.procs && u.procs[p] == Creds(Undo(q, id, w)) && NewClient(u.env, q.config).Ok?
    ensures var t := Next(u, Act(p, DeleteReplied(Deleted)));
            if MayDelete(u.aap, AdminAuth(u.env, q.config), id)
            then t == u.(aap := u.aap.(live := u.aap.live - {id}), procs := u.procs[p := Creds(UndoWal(q, id, w))])
            else t == u.(procs := u.procs - {p})
  {
    hide NewClient; hide MayDelete; hide RevokeStep; hide RotateStep; hide WriteStep; hide Start;
  }

  /** A request whose guard failed, or whose caller went away, sends one DELETE. If AAP answers it, the token is dead
      and the request goes on to delete its WAL entry, if and only if the root token that the request read is not a
      dead one; else the entry stays, and names the token, for the rollback. */
  lemma UndoRevokesIff(s: State, actions: seq<Action>, i: int, p: Pid, q: Request, id: int, w: nat)
    requires ActsFrom(s, actions, i)
    requires var u := Run(s, actions); p in u.procs && u.procs[p] == Creds(Undo(q, id, w))
    ensures var u := Run(s, actions);
            var t := Next(u, Act(p, DeleteReplied(Deleted)));
            if RootIsDead(u, q.config)
            then t == u.(procs := u.procs - {p}) && (id in t.aap.live ==> w in t.wal && t.wal[w].id == id)
            else id !in t.aap.live && p in t.procs && t.procs[p] == Creds(UndoWal(q, id, w)) && t.wal == u.wal
  {
    hide Inv; hide Run; hide Next; hide ActsFrom; hide MayDelete; hide NewClient;
    CleanupMayDelete(s, actions, i, p);
    UndoSteps(Run(s, actions), p, q, id, w);
    UnderWalBuilds(Run(s, actions), p);
  }

  /** Then the entry goes if storage answers, and stays, for a token already dead, if it does not. */
  lemma UndoneEntryGoes(s: State, p: Pid, q: Request, id: int, w: nat)
    requires Reachable(s) && p in s.procs && s.procs[p] == Creds(UndoWal(q, id, w))
    ensures id !in s.aap.live
    ensures var t := Next(s, Act(p, Succeeds)); p !in t.procs && t.aap == s.aap && t.wal == s.wal - {w}
    ensures var t := Next(s, Act(p, Fails)); p !in t.procs && t.aap == s.aap && t.wal == s.wal
  {
    hide Reachable; hide Inv; hide RevokeStep; hide RotateStep; hide WriteStep; hide Start;
    ReachableInv(s);
    UnderWalBuilds(s, p);
  }

  lemma UndoCommitSteps(u: State, p: Pid, q: Request, id: int, w: nat)
    requires p in u.procs && u.procs[p] == Creds(UndoCommit(q, id, w)) && NewClient(u.env, q.config).Ok?
    ensures var t := Next(u, Act(p, DeleteReplied(Deleted)));
            t == u.(aap := t.aap, procs := u.procs - {p})
            && t.aap.live == if MayDelete(u.aap, AdminAuth(u.env, q.config), id) then u.aap.live - {id} else u.aap.live
  {
    hide NewClient; hide MayDelete; hide RevokeStep; hide RotateStep; hide WriteStep; hide Start;
  }

  /** A request that could not delete its WAL entry sends one DELETE and ends. If AAP answers it, the token is dead
      unless the root token that the request read is a dead one; the entry stays either way. */
  lemma UndoCommitRevokesIff(s: State, actions: seq<Action>, i: int, p: Pid, q: Request, id: int, w: nat)
    requires ActsFrom(s, actions, i)
    requires var u := Run(s, actions); p in u.procs && u.procs[p] == Creds(UndoCommit(q, id, w))
    ensures var u := Run(s, actions);
            var t := Next(u, Act(p, DeleteReplied(Deleted)));
            && p !in t.procs && t.wal == u.wal && t.leases == u.leases
            && (id in t.aap.live <==> id in u.aap.live && RootIsDead(u, q.config))
            && (id in t.aap.live ==> w in t.wal && t.wal[w].id == id)
  {
    hide Inv; hide Run; hide Next; hide ActsFrom; hide MayDelete; hide NewClient;
    CleanupMayDelete(s, actions, i, p);
    UndoCommitSteps(Run(s, actions), p, q, id, w);
    UnderWalBuilds(Run(s, actions), p);
  }

  // ----- However it leaves

  lemma LeavesByItsLastStep(u: State, p: Pid, e: Event)
    requires p in u.procs && u.procs[p].Creds? && UnderWal(u.procs[p].c) && Races.Answers(e)
        && p !in Next(u, Act(p, e)).procs
    ensures var c := u.procs[p].c;
            || (c.UndoWal? && e == Succeeds)
            || ((c.Undo? || c.UndoCommit?) && e == DeleteReplied(Deleted))
  {
    OnlyCleanupLeaves(u, p, e);
    hide NewClient; hide MayDelete; hide RevokeStep; hide RotateStep; hide WriteStep; hide Start;
  }

  /** In any interleaving with rotations, rollbacks, revocations, other mints and crashes, while the engine runs as a
      privileged identity: a request that leaves under its WAL entry, with its last call answered, leaves no lease
      and a dead token, and no entry if it got as far as deleting it; or the root token it read has been revoked
      since, and its entry stays and names the token. */
  lemma AnsweredRefusalRevokes(s: State, actions: seq<Action>, i: int, p: Pid, e: Event)
    requires ActsFrom(s, actions, i)
    requires var u := Run(s, actions);
             p in u.procs && u.procs[p].Creds? && UnderWal(u.procs[p].c) && Races.Answers(e)
                 && p !in Next(u, Act(p, e)).procs
    ensures var u := Run(s, actions);
            var c := u.procs[p].c;
            var t := Next(u, Act(p, e));
            && (forall l :: l in t.leases ==> t.leases[l].grant.id != c.id)
            && (|| (c.id !in t.aap.live && (c.UndoWal? ==> c.w !in t.wal))
                || (RootIsDead(u, c.q.config) && !c.UndoWal? && c.w in t.wal && t.wal[c.w].id == c.id))
  {
    hide Reachable; hide Inv; hide Run; hide Next; hide RunsAs; hide RequestsAct;
    var u := Run(s, actions);
    assert Reachable(u) by { GoesOnReachable(s, actions); }
    LeavesByItsLastStep(u, p, e);
    RefusedMintIsCovered(u, p, e);
    match u.procs[p].c
    case Undo(q, id, w) => UndoRevokesIff(s, actions, i, p, q, id, w);
    case UndoWal(q, id, w) => UndoneEntryGoes(u, p, q, id, w);
    case UndoCommit(q, id, w) => UndoCommitRevokesIff(s, actions, i, p, q, id, w);
  }

  lemma GoesOnReachable(s: State, actions: seq<Action>)
    requires Reachable(s)
    ensures Reachable(Run(s, actions))
  {
    hide Run; hide Initial;
    var s0: State, past: seq<Action> :| Initial(s0) && s == Run(s0, past);
    RunBoth(s0, past, actions);
  }

  // ----- A run in which the cleanup fails

  /** A reachable state in which the cleanup of a cancelled request fails although AAP answers it: a rotation has
      revoked the credential that the request read. The token stays live under its entry, and the configuration
      now stored could delete it. */
  lemma UndoIsOvertaken() returns (s: State, q: Request, w: nat)
    ensures Reachable(s) && RunsAs(s, 7) && 1 in s.procs && s.procs[1] == Creds(Undo(q, 2, w)) && 2 in s.aap.live
    ensures RootIsDead(s, q.config)
    ensures var t := Next(s, Act(1, DeleteReplied(Deleted)));
            && 1 !in t.procs && 2 in t.aap.live && w in t.wal && t.wal[w].id == 2
            && s.config.Some? && NewClient(s.env, s.config.value).Ok?
                && MayDelete(s.aap, AdminAuth(s.env, s.config.value), 2)
  {
    hide Inv; hide Running; hide MayDelete; hide NewClient; hide Next;
    var first, u := MintedThenRotated();
    q, w := Asked(first, "ci"), u.nextWal;
    s := Cancelled(u, q);
    RunningActs(s);
    StoredBuildsClient(s, 7);
    ActorMayDelete(s, 7, 2);
    UnderWalBuilds(s, 1);
    UndoSteps(s, 1, q, 2, w);
    assert !MayDelete(s.aap, AdminAuth(s.env, q.config), 2) by { DeadSnapshot(s, q.config, 2); }
  }

  /** The request records its token and loses its caller. */
  lemma Cancelled(u: State, q: Request) returns (s: State)
    requires Running(u, 7) && u.procs == map[1 := Creds(PutWal(q, 2))] && q.application == 0 && q.role.username == ""
    ensures Running(s, 7) && s.procs == map[1 := Creds(Undo(q, 2, u.nextWal))] && s.aap == u.aap && s.config == u.config
    ensures s.env == u.env
  {
    hide Running; hide Next; hide Undisturbed;
    var ok, gone := Act(1, Succeeds), Act(1, Cancel);
    CancelSteps(u, q);
    assert Undisturbed(ok) && Undisturbed(gone) by { NoOperator(1); }
    StepsOn(u, ok, 7);
    StepsOn(Next(u, ok), gone, 7);
    s := Next(Next(u, ok), gone);
  }

  lemma NoOperator(p: Pid)
    ensures Undisturbed(Act(p, Succeeds)) && Undisturbed(Act(p, Cancel))
  {
  }

  lemma CancelSteps(u: State, q: Request)
    requires u.procs == map[1 := Creds(PutWal(q, 2))] && q.application == 0 && q.role.username == ""
    ensures var s := Next(Next(u, Act(1, Succeeds)), Act(1, Cancel));
            s.procs == map[1 := Creds(Undo(q, 2, u.nextWal))] && s.aap == u.aap && s.config == u.config
                && s.env == u.env
  {
    hide RevokeStep; hide RotateStep; hide WriteStep; hide Start;
    assert Next(u, Act(1, Succeeds)).procs == map[1 := Creds(CheckContext(q, 2, u.nextWal))];
  }
}
