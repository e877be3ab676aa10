/** Every step of a creds request keeps the invariant. */
module CredsSteps {
  import opened Wrappers
  import opened Client
  import opened ConfigWrite
  import opened Aap
  import opened Protocol
  import opened Invariant
  import opened StepKinds
  import opened Decimal
  import opened Marker
  import opened Roles

  lemma ReadConfigStepKeeps(s: State, p: Pid, name: string, role: Role, e: Event)
    requires Inv(s) && p in s.procs && s.procs[p] == Creds(ReadConfig(name, role))
    ensures Inv(ReadConfigStep(s, p, name, role, e))
  {
    hide Inv; hide WellFormed; hide NewClient;
    StoredIsWellFormed(s);
    var t := ReadConfigStep(s, p, name, role, e);
    if t != s { Moves(s, t, p); }
  }

  lemma ResolveAppStepKeeps(s: State, p: Pid, q: Request, e: Event)
    requires Inv(s) && p in s.procs && s.procs[p] == Creds(ResolveApp(q))
    ensures Inv(ResolveAppStep(s, p, q, e))
  {
    hide Inv; hide WellFormed; hide ResolveId;
    Knows(s, p);
    var t := ResolveAppStep(s, p, q, e);
    if t != s { Moves(s, t, p); }
  }

  lemma ResolveUserStepKeeps(s: State, p: Pid, q: Request, e: Event)
    requires Inv(s) && p in s.procs && s.procs[p] == Creds(ResolveUser(q))
    ensures Inv(ResolveUserStep(s, p, q, e))
  {
    hide Inv; hide WellFormed; hide ResolveId;
    Knows(s, p);
    var t := ResolveUserStep(s, p, q, e);
    if t != s { Moves(s, t, p); }
  }

  lemma MintOwn(s: State, t: State, p: Pid, q: Request, description: string, reply: PostReply, requestId: string)
    requires Inv(s) && p in s.procs && s.procs[p] == Creds(Mint(q)) && IsRequestId(requestId) && requestId !in s.markers
    requires NewClient(s.env, q.config).Ok? && Creates(s.aap, MintAuth(s.env, q), reply)
    requires description == MintDescription(q.config.tokenDescriptionPrefix, q.role.description, requestId)
    requires t == MintStep(s, p, q, reply, requestId)
    ensures p in t.procs && ProcOk(t, p, t.procs[p])
  {
    hide WellFormed; hide NewClient; hide MintDescription; hide IdentityOf; hide Marked;
    hide WalOk; hide LeasesOk; hide RootOk; hide LocksOk; hide CacheOk;
    assert ProcOk(s, p, s.procs[p]);
    MintedIsMarked(q.config.tokenDescriptionPrefix, q.role.description, requestId);
  }

  lemma AwaitMintStepKeeps(s: State, p: Pid, q: Request, e: Event)
    requires Inv(s) && p in s.procs && s.procs[p] == Creds(Mint(q))
    ensures Inv(AwaitMintStep(s, p, q, e))
  {
    hide Inv; hide WellFormed; hide NewClient; hide MintDescription; hide IdentityOf; hide Marked; hide ServerOk;
    hide ProcOk;
    var t := AwaitMintStep(s, p, q, e);
    LocksHeld(s, p);
    if e.PostReplied? && t != s {
      var description := MintDescription(q.config.tokenDescriptionPrefix, q.role.description, e.requestId);
      MintedIsMarked(q.config.tokenDescriptionPrefix, q.role.description, e.requestId);
      if Creates(s.aap, MintAuth(s.env, q), e.post) {
        ServerIsOk(s);
        PostKeepsServer(s.aap, s.markers, MintAuth(s.env, q), description, Some(e.requestId), e.post);
        MintOwn(s, t, p, q, description, e.post, e.requestId);
        JustMintedKeeps(s, t, p, InFlight(p));
      } else {
        NothingMinted(s, t, p, q, description, e.post, e.requestId);
      }
    } else if t != s {
      Moves(s, t, p);
    }
  }

  lemma NothingMinted(s: State, t: State, p: Pid, q: Request, description: string, reply: PostReply, requestId: string)
    requires Inv(s) && p in s.procs && s.procs[p] == Creds(Mint(q)) && IsRequestId(requestId) && requestId !in s.markers
    requires NewClient(s.env, q.config).Ok? && !Creates(s.aap, MintAuth(s.env, q), reply)
    requires description == MintDescription(q.config.tokenDescriptionPrefix, q.role.description, requestId)
    requires t == MintStep(s, p, q, reply, requestId)
    ensures Inv(t)
  {
    hide Inv; hide WellFormed; hide NewClient; hide MintDescription; hide IdentityOf; hide Marked;
    MintedIsMarked(q.config.tokenDescriptionPrefix, q.role.description, requestId);
    var used := s.(markers := s.markers + {requestId});
    MarkerKeeps(s, used, requestId);
    ServerIsOk(s);
    Moves(used, t, p);
  }

  lemma PutWalStepOwn(s: State, p: Pid, q: Request, id: int, e: Event)
    requires Inv(s) && p in s.procs && s.procs[p] == Creds(PutWal(q, id))
    ensures WellFormed(s.env, q.config) && Carried(s, p, id) && IsMintedForRequest(s, id)
    ensures var t := PutWalStep(s, p, q, id, e); p in t.procs ==> ProcOk(t, p, t.procs[p])
  {
    hide Inv; hide WellFormed;
    Knows(s, p);
    Agrees(s, id);
  }

  lemma PutWalStepKeeps(s: State, p: Pid, q: Request, id: int, e: Event)
    requires Inv(s) && p in s.procs && s.procs[p] == Creds(PutWal(q, id))
    ensures Inv(PutWalStep(s, p, q, id, e))
  {
    hide Inv; hide WellFormed; hide ProcOk;
    PutWalStepOwn(s, p, q, id, e);
    Agrees(s, id);
    LocksHeld(s, p);
    var t := PutWalStep(s, p, q, id, e);
    if e.Succeeds? { OneToken(s, t, p, id); } else if t != s { Moves(s, t, p); }
  }

  lemma GuardAppStepKeeps(s: State, p: Pid, q: Request, id: int, w: nat, e: Event)
    requires Inv(s) && p in s.procs && s.procs[p] == Creds(GuardApp(q, id, w))
    ensures Inv(GuardAppStep(s, p, q, id, w, e))
  {
    hide Inv; hide WellFormed; hide NewClient; hide Works;
    Knows(s, p);
    var t := GuardAppStep(s, p, q, id, w, e);
    if t != s { Moves(s, t, p); }
  }

  lemma GuardUserStepKeeps(s: State, p: Pid, q: Request, id: int, w: nat, e: Event)
    requires Inv(s) && p in s.procs && s.procs[p] == Creds(GuardUser(q, id, w))
    ensures Inv(GuardUserStep(s, p, q, id, w, e))
  {
    hide Inv; hide WellFormed; hide NewClient; hide Works;
    Knows(s, p);
    var t := GuardUserStep(s, p, q, id, w, e);
    if t != s { Moves(s, t, p); }
  }

  lemma CheckContextStepKeeps(s: State, p: Pid, q: Request, id: int, w: nat, e: Event)
    requires Inv(s) && p in s.procs && s.procs[p] == Creds(CheckContext(q, id, w))
    ensures Inv(CheckContextStep(s, p, q, id, w, e))
  {
    hide Inv; hide WellFormed;
    Knows(s, p);
    var t := CheckContextStep(s, p, q, id, w, e);
    if t != s { Moves(s, t, p); }
  }

  lemma UndoWalStepOwn(s: State, p: Pid, q: Request, id: int, w: nat, e: Event)
    requires Inv(s) && p in s.procs && s.procs[p] == Creds(UndoWal(q, id, w))
    ensures Logged(s, p, id, w) && id !in s.aap.live
    ensures var t := UndoWalStep(s, p, q, id, w, e); p in t.procs ==> ProcOk(t, p, t.procs[p])
  {
    hide Inv; hide WellFormed;
    Knows(s, p);
  }

  lemma UndoWalStepKeeps(s: State, p: Pid, q: Request, id: int, w: nat, e: Event)
    requires Inv(s) && p in s.procs && s.procs[p] == Creds(UndoWal(q, id, w))
    ensures Inv(UndoWalStep(s, p, q, id, w, e))
  {
    hide Inv; hide WellFormed; hide ProcOk;
    UndoWalStepOwn(s, p, q, id, w, e);
    Agrees(s, id);
    LocksHeld(s, p);
    var t := UndoWalStep(s, p, q, id, w, e);
    if e.Succeeds? { OneToken(s, t, p, id); } else if t != s { Moves(s, t, p); }
  }

  lemma CommitStepOwn(s: State, p: Pid, q: Request, id: int, w: nat, e: Event)
    requires Inv(s) && p in s.procs && s.procs[p] == Creds(Commit(q, id, w))
    ensures Logged(s, p, id, w)
    ensures var t := CommitStep(s, p, q, id, w, e); p in t.procs ==> ProcOk(t, p, t.procs[p])
  {
    hide Inv; hide WellFormed;
    Knows(s, p);
  }

  lemma CommitStepKeeps(s: State, p: Pid, q: Request, id: int, w: nat, e: Event)
    requires Inv(s) && p in s.procs && s.procs[p] == Creds(Commit(q, id, w))
    ensures Inv(CommitStep(s, p, q, id, w, e))
  {
    hide Inv; hide WellFormed; hide ProcOk;
    CommitStepOwn(s, p, q, id, w, e);
    Agrees(s, id);
    LocksHeld(s, p);
    var t := CommitStep(s, p, q, id, w, e);
    if e.Succeeds? { OneToken(s, t, p, id); } else if t != s { Moves(s, t, p); }
  }

  lemma RespondStepOwn(s: State, p: Pid, lease: Lease, e: Event)
    requires Inv(s) && p in s.procs && s.procs[p] == Creds(Respond(lease))
    ensures WellFormed(s.env, lease.grant.config) && Carried(s, p, lease.grant.id)
        && IsMintedForRequest(s, lease.grant.id)
    ensures var t := RespondStep(s, p, lease, e); p in t.procs ==> ProcOk(t, p, t.procs[p])
  {
    hide Inv; hide WellFormed;
    Knows(s, p);
  }

  lemma RespondStepKeeps(s: State, p: Pid, lease: Lease, e: Event)
    requires Inv(s) && p in s.procs && s.procs[p] == Creds(Respond(lease))
    ensures Inv(RespondStep(s, p, lease, e))
  {
    hide Inv; hide WellFormed; hide ProcOk;
    RespondStepOwn(s, p, lease, e);
    Agrees(s, lease.grant.id);
    LocksHeld(s, p);
    var t := RespondStep(s, p, lease, e);
    if t != s { OneToken(s, t, p, lease.grant.id); }
  }

  lemma FinishSweepKeeps(s: State, t: State, p: Pid, token: Option<int>, cause: Cause)
    requires Inv(s) && p in s.procs && s.procs[p].Creds? && (s.procs[p].c.SweepList? || s.procs[p].c.SweepDelete?)
    requires s.procs[p].c.token == token && t == FinishSweep(s, p, token, cause)
    ensures Inv(t)
  {
    hide Inv;
    Knows(s, p);
    LocksHeld(s, p);
    if token.None? {
      Moves(s, t, p);
    } else {
      Agrees(s, token.value);
      OneToken(s, t, p, token.value);
    }
  }

  /** Whatever the listing holds, the exact description match leaves at most this request's own token. */
  lemma SweepFindsOwn(s: State, p: Pid, description: string, marker: string, token: Option<int>, rows: seq<Row>)
    requires ServerOk(s.aap, s.markers) && Marked(description, marker) && Truthful(s.aap, rows)
    requires forall id :: id in s.aap.tokens && s.aap.tokens[id].marker == Some(marker) ==> token == Some(id)
    ensures forall id :: id in IdsWithDescription(rows, description) ==> token == Some(id)
  {
    hide Marked; hide CarriesMarker;
    RootIsUnmarked(marker);
    MarkedCarries(description, marker);
    forall id | id in IdsWithDescription(rows, description)
      ensures token == Some(id)
    {
      IdsWithDescriptionMeaning(rows, description, id);
      var i :| 0 <= i < |rows| && rows[i] == Row(id, description);
      var m := s.aap.tokens[id].marker;
      if m.Some? { MarkedDiffer(description, m.value, marker); }
    }
  }

  lemma SweepListStepKeeps(s: State, p: Pid, auth: Auth, description: string, token: Option<int>, e: Event,
      marker: string)
    requires Inv(s) && p in s.procs && s.procs[p] == Creds(SweepList(auth, description, marker, token))
    ensures Inv(SweepListStep(s, p, auth, description, token, e))
  {
    hide Inv; hide WellFormed; hide NewClient; hide Works; hide Marked; hide ServerOk;
    Knows(s, p);
    assert ServerOk(s.aap, s.markers) by { ServerIsOk(s); }
    var t := SweepListStep(s, p, auth, description, token, e);
    if e.Listing? && Works(s.aap, auth) && Truthful(s.aap, e.rows) {
      SweepFindsOwn(s, p, description, marker, token, e.rows);
      if IdsWithDescription(e.rows, description) == [] {
        FinishSweepKeeps(s, t, p, token, SweepMissed);
      } else {
        Moves(s, t, p);
      }
    } else if t != s {
      FinishSweepKeeps(s, t, p, token, SweepFailed);
    }
  }

  lemma UndoStepKeeps(s: State, p: Pid, q: Request, id: int, w: nat, e: Event)
    requires Inv(s) && p in s.procs && s.procs[p] == Creds(Undo(q, id, w))
    ensures Inv(UndoStep(s, p, q, id, w, e))
  {
    hide Inv; hide WellFormed; hide NewClient; hide MayDelete;
    Knows(s, p);
    var t := UndoStep(s, p, q, id, w, e);
    if t != s {
      var s1 := DeleteFrom(s, AdminAuth(s.env, q.config), id, e.delete);
      DeleteKeeps(s, AdminAuth(s.env, q.config), id, e.delete);
      Knows(s1, p);
      Moves(s1, t, p);
    }
  }

  lemma UndoCommitStepKeeps(s: State, p: Pid, q: Request, id: int, w: nat, e: Event)
    requires Inv(s) && p in s.procs && s.procs[p] == Creds(UndoCommit(q, id, w))
    ensures Inv(UndoCommitStep(s, p, q, id, w, e))
  {
    hide Inv; hide WellFormed; hide NewClient; hide MayDelete;
    Knows(s, p);
    var t := UndoCommitStep(s, p, q, id, w, e);
    if t != s {
      DeleteKeeps(s, AdminAuth(s.env, q.config), id, e.delete);
      Moves(DeleteFrom(s, AdminAuth(s.env, q.config), id, e.delete), t, p);
    }
  }

  lemma DropUnloggedStepKeeps(s: State, p: Pid, q: Request, id: int, e: Event)
    requires Inv(s) && p in s.procs && s.procs[p] == Creds(DropUnlogged(q, id))
    ensures Inv(DropUnloggedStep(s, p, q, id, e))
  {
    hide Inv; hide WellFormed; hide NewClient; hide MayDelete;
    Knows(s, p);
    var t := DropUnloggedStep(s, p, q, id, e);
    if t != s {
      var s1 := DeleteFrom(s, AdminAuth(s.env, q.config), id, e.delete);
      DeleteKeeps(s, AdminAuth(s.env, q.config), id, e.delete);
      Agrees(s1, id);
      LocksHeld(s1, p);
      OneToken(s1, t, p, id);
    }
  }

  lemma SweepDeleteStepKeeps(s: State, p: Pid, auth: Auth, ids: seq<int>, token: Option<int>, e: Event)
    requires Inv(s) && p in s.procs && s.procs[p] == Creds(SweepDelete(auth, ids, token))
    ensures Inv(SweepDeleteStep(s, p, auth, ids, token, e))
  {
    hide Inv; hide WellFormed; hide MayDelete;
    Knows(s, p);
    var id := ids[0];
    assert id in ids && token == Some(id);
    var t := SweepDeleteStep(s, p, auth, ids, token, e);
    if t != s {
      var s1 := DeleteFrom(s, auth, id, e.delete);
      DeleteKeeps(s, auth, id, e.delete);
      if !DeleteConfirmed(s.aap, auth, id, e.delete) {
        FinishSweepKeeps(s1, t, p, token, SweepFailed);
      } else if ids[1..] == [] {
        FinishSweepKeeps(s1, t, p, token, SweepMissed);
      } else {
        Moves(s1, t, p);
      }
    }
  }
}
