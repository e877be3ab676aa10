/** Nothing deadlocks: a step moves only its own operation, and from every reachable state every operation
    in flight can be run to its end by its own steps and those of whoever holds the client lock. */
module Progress {
  import opened Wrappers
  import opened Client
  import opened ConfigWrite
  import opened Aap
  import opened Protocol
  import opened Invariant
  import opened StepKinds
  import opened Lifecycle
  import opened Effects
  import opened Revocation

  // ----- A step moves only its own operation

  lemma RotateMovesOne(s: State, p: Pid, t: RotatePc, e: Event)
    ensures SameOthers(s, RotateStep(s, p, t, e), p)
  {
    hide NewClient; hide Delete; hide DeleteConfirmed; hide Works; hide Creates; hide Post;
  }

  lemma WriteMovesOne(s: State, p: Pid, w: WritePc, e: Event)
    ensures SameOthers(s, WriteStep(s, p, w, e), p)
  {
    hide NewClient; hide Works; hide Accept;
  }

  lemma ActorMoves(s: State, t: State, p: Pid, creds: bool)
    requires ActorOnly(s, t, p, creds)
    ensures SameOthers(s, t, p)
  {
  }

  lemma StepMovesOne(s: State, p: Pid, e: Event)
    requires Inv(s)
    ensures SameOthers(s, Next(s, Act(p, e)), p)
  {
    hide Inv; hide CredsStep; hide RevokeStep; hide RotateStep; hide WriteStep; hide TargetOf; hide Grows;
    hide ActorOnly;
    if p in s.procs {
      match s.procs[p]
      case Creds(c) => CredsGrows(s, p, c, e); ActorMoves(s, CredsStep(s, p, c, e), p, true);
      case Revoke(src, r) => RevokeGrows(s, p, src, r, e); ActorMoves(s, RevokeStep(s, p, src, r, e), p, false);
      case Rotate(t) => RotateMovesOne(s, p, t, e);
      case Write(w) => WriteMovesOne(s, p, w, e);
    }
  }

  lemma RootOpsStayRootOps(s: State, p: Pid, t: RotatePc, w: WritePc, e: Event)
    requires p in s.procs
    ensures s.procs[p].Rotate? && p in RotateStep(s, p, t, e).procs ==> RotateStep(s, p, t, e).procs[p].Rotate?
    ensures s.procs[p].Write? && p in WriteStep(s, p, w, e).procs ==> WriteStep(s, p, w, e).procs[p].Write?
  {
    hide NewClient; hide Delete; hide DeleteConfirmed; hide Works; hide Creates; hide Post; hide Accept;
  }

  predicate IsRootOp(pc: Proc) { pc.Rotate? || pc.Write? }

  /** The root operations in t were root operations in s. */
  ghost predicate NoNewRootOps(s: State, t: State) {
    forall q :: q in t.procs && IsRootOp(t.procs[q]) ==> q in s.procs && IsRootOp(s.procs[q])
  }

  lemma StepAddsNoRootOp(s: State, p: Pid, e: Event)
    requires Inv(s) && p in s.procs
    ensures NoNewRootOps(s, Next(s, Act(p, e)))
  {
    hide Inv; hide CredsStep; hide RevokeStep; hide RotateStep; hide WriteStep; hide Grows;
    StepMovesOne(s, p, e);
    match s.procs[p]
    case Creds(c) => CredsGrows(s, p, c, e);
    case Revoke(src, r) => RevokeGrows(s, p, src, r, e);
    case _ =>
  }

  // ----- Every operation can finish

  /** The outcome that takes an operation the shortest way out. */
  function AbortEvent(pc: Proc): Event {
    match pc
    case Creds(c) =>
      if c.SweepDelete? || c.DropUnlogged? || c.Undo? || c.UndoCommit? then DeleteReplied(DeleteFailed)
      else if c.CheckContext? then Cancel
      else if c.Respond? then Succeeds
      else Fails
    case Revoke(_, r) =>
      if r.BySnapshot? || r.ByCurrent? then DeleteReplied(DeleteFailed)
      else if r.LoadClient? || r.Revoked? then Fails
      else Succeeds
    case Rotate(t) =>
      if t.MintRoot? then PostReplied(Lost, "")
      else if t.CleanupRoot? || t.RevokeOld? then DeleteReplied(DeleteFailed)
      else if t.ResetRoot? then Succeeds
      else Fails
    case Write(w) => if w.ResetClient? then Succeeds else Fails
  }

  function Rank(pc: Proc): nat {
    match pc
    case Creds(c) => if c.PutWal? || c.GuardApp? || c.GuardUser? || c.CheckContext? || c.Commit? then 2 else 1
    case Revoke(_, r) =>
      (match r
       case BySnapshot(_, _) => 6 case CheckCache(_, _) => 5 case AwaitLock(_, _) => 4 case LoadClient(_, _) => 3
       case StoreClient(_, _, _) => 2 case _ => 1)
    case Rotate(t) =>
      if t.ResetRoot? then 3 else if t.RevokeOld? || t.VerifyRoot? || t.PutRoot? then 2 else 1
    case Write(_) => 1
  }

  ghost predicate Progresses(s: State, t: State, p: Pid) {
    && p in s.procs && (p in t.procs ==> Rank(t.procs[p]) < Rank(s.procs[p]))
    && (t.lock == None || t.lock == Some(p))
  }

  lemma CredsProgress(s: State, p: Pid)
    requires Inv(s) && p in s.procs && s.procs[p].Creds? && s.lock == None
    ensures Progresses(s, CredsStep(s, p, s.procs[p].c, AbortEvent(s.procs[p])), p)
  {
    hide Inv; hide WellFormed; hide NewClient; hide Delete; hide MayDelete; hide Works; hide Truthful;
    ClientsBuild(s, p);
  }

  lemma ClientsBuild(s: State, p: Pid)
    requires Inv(s) && p in s.procs
    ensures s.procs[p].Creds? ==>
              var c := s.procs[p].c;
              && (c.DropUnlogged? || c.Undo? || c.UndoCommit? ==> NewClient(s.env, c.q.config).Ok?)
              && (c.SweepDelete? ==> c.ids != [])
    ensures s.procs[p].Rotate? ==>
              var t := s.procs[p].t;
              && (t.MintRoot? || t.CleanupRoot? ==> NewClient(s.env, t.config).Ok?)
              && (t.RevokeOld? ==> NewClient(s.env, t.next).Ok?)
  {
    hide NewClient; hide ServerOk; hide WalOk; hide LeasesOk; hide LedgerOk; hide LocksOk; hide CacheOk; hide Logged;
    hide Carried;
    assert ProcOk(s, p, s.procs[p]);
  }

  lemma RevokeProgress(s: State, p: Pid)
    requires p in s.procs && s.procs[p].Revoke? && (s.lock == None || (s.lock == Some(p)
        && HoldsClientLock(s.procs[p])))
    ensures Progresses(s, RevokeStep(s, p, s.procs[p].src, s.procs[p].r, AbortEvent(s.procs[p])), p)
    ensures HoldsClientLock(s.procs[p]) ==> RevokeStep(s, p, s.procs[p].src, s.procs[p].r, AbortEvent(s.procs[p])).lock == None
  {
    hide NewClient; hide Delete; hide MayDelete;
  }

  lemma RotateProgress(s: State, p: Pid)
    requires Inv(s) && p in s.procs && s.procs[p].Rotate? && s.lock == None
    ensures Progresses(s, RotateStep(s, p, s.procs[p].t, AbortEvent(s.procs[p])), p)
  {
    hide Inv; hide NewClient; hide Delete; hide MayDelete; hide Works;
    ClientsBuild(s, p);
  }

  lemma WriteProgress(s: State, p: Pid)
    requires p in s.procs && s.procs[p].Write? && s.lock == None
    ensures Progresses(s, WriteStep(s, p, s.procs[p].w, AbortEvent(s.procs[p])), p)
  {
    hide NewClient; hide Works; hide Accept;
  }

  lemma StepProgresses(s: State, p: Pid)
    requires Inv(s) && p in s.procs && (s.lock == None || s.lock == Some(p))
    ensures var t := Next(s, Act(p, AbortEvent(s.procs[p])));
            Progresses(s, t, p) && (HoldsClientLock(s.procs[p]) ==> t.lock == None)
  {
    hide Inv; hide CredsStep; hide RevokeStep; hide RotateStep; hide WriteStep; hide Progresses; hide AbortEvent;
    LocksHeld(s, p);
    match s.procs[p]
    case Creds(c) => CredsProgress(s, p);
    case Revoke(src, r) => RevokeProgress(s, p);
    case Rotate(t) => RotateProgress(s, p);
    case Write(w) => WriteProgress(s, p);
  }

  /** One step of its holder frees the client lock. */
  lemma ClientLockIsReleased(s: State)
    requires Inv(s) && s.lock.Some?
    ensures s.lock.value in s.procs && HoldsClientLock(s.procs[s.lock.value])
    ensures Next(s, Act(s.lock.value, AbortEvent(s.procs[s.lock.value]))).lock == None
  {
    hide Inv; hide Next; hide AbortEvent;
    LockHasHolder(s);
    StepProgresses(s, s.lock.value);
  }

  lemma LockHasHolder(s: State)
    requires Inv(s)
    ensures s.lock.Some? ==> s.lock.value in s.procs && HoldsClientLock(s.procs[s.lock.value])
    ensures s.configLock.Some? ==> s.configLock.value in s.procs && IsRootOp(s.procs[s.configLock.value])
  {
  }

  /** The steps that finish operation p: first whoever holds the client lock lets go, then p takes the
      shortest way out. */
  lemma {:induction false} EveryOperationCanFinish(s: State, p: Pid) returns (actions: seq<Action>)
    requires Inv(s) && p in s.procs
    ensures p !in Run(s, actions).procs
    ensures forall k :: 0 <= k < |actions| ==> actions[k].Act? && (actions[k].p == p || s.lock == Some(actions[k].p))
    decreases Rank(s.procs[p]), s.lock.Some? && s.lock != Some(p)
  {
    hide Inv; hide Next; hide AbortEvent; hide Rank; hide Run;
    var holder := if s.lock.Some? then s.lock.value else p;
    if s.lock.Some? { LockHasHolder(s); }
    var a := Act(holder, AbortEvent(s.procs[holder]));
    var t := Next(s, a);
    NextKeeps(s, a);
    StepMovesOne(s, holder, a.e);
    StepProgresses(s, holder);
    RunNothing(s);
    RunOn(s, [], a);
    assert [] + [a] == [a];
    if p in t.procs {
      var rest := EveryOperationCanFinish(t, p);
      RunSplits(s, [a] + rest, 1);
      assert ([a] + rest)[..1] == [a] && ([a] + rest)[1..] == rest;
      actions := [a] + rest;
    } else {
      actions := [a];
    }
  }

  /** While configLock is held, the step of its holder, or of whoever holds the client lock it may be
      waiting for, brings its release closer. */
  lemma ConfigLockIsReleased(s: State)
    requires Inv(s) && s.configLock.Some?
    ensures s.configLock.value in s.procs && (s.lock.Some? ==> s.lock.value in s.procs)
    ensures var holder := if s.lock.Some? then s.lock.value else s.configLock.value;
            var t := Next(s, Act(holder, AbortEvent(s.procs[holder])));
            t.configLock == None
            || (&& t.configLock == s.configLock && s.configLock.value in t.procs
                && if s.lock.Some? then t.lock == None && t.procs[s.configLock.value] == s.procs[s.configLock.value]
                   else Rank(t.procs[s.configLock.value]) < Rank(s.procs[s.configLock.value]))
  {
    hide Inv; hide Next; hide AbortEvent; hide Rank;
    LockHasHolder(s);
    var holder := if s.lock.Some? then s.lock.value else s.configLock.value;
    var a := Act(holder, AbortEvent(s.procs[holder]));
    var t := Next(s, a);
    NextKeeps(s, a);
    LockHasHolder(t);
    StepMovesOne(s, holder, a.e);
    StepProgresses(s, holder);
    StepAddsNoRootOp(s, holder, a.e);
    if t.configLock.Some? { RootOpHoldsLock(s, t.configLock.value); }
  }

  lemma RootOpHoldsLock(s: State, p: Pid)
    requires Inv(s) && p in s.procs && IsRootOp(s.procs[p])
    ensures s.configLock == Some(p)
  {
    hide NewClient; hide ServerOk; hide WalOk; hide LeasesOk; hide LedgerOk; hide LocksOk; hide CacheOk; hide RootOk;
    assert ProcOk(s, p, s.procs[p]);
  }
}
