/** The privileged credential travels only to https endpoints: in every reachable state, every client that the
    engine has cached, holds in an operation, or builds from something it has stored. */
module Endpoints {
  import opened Wrappers
  import opened Client
  import opened ConfigWrite
  import opened Aap
  import opened Protocol
  import opened Invariant
  import opened StepKinds
  import opened Lifecycle
  import opened Ownership
  import opened Effects
  import opened Progress
  import opened Races

  /** The configurations that an operation builds its clients from. */
  function ConfigsOf(pc: Proc): set<Config> {
    match pc
    case Creds(ResolveApp(q)) => {q.config}
    case Creds(ResolveUser(q)) => {q.config}
    case Creds(Mint(q)) => {q.config}
    case Creds(PutWal(q, _)) => {q.config}
    case Creds(DropUnlogged(q, _)) => {q.config}
    case Creds(GuardApp(q, _, _)) => {q.config}
    case Creds(GuardUser(q, _, _)) => {q.config}
    case Creds(CheckContext(q, _, _)) => {q.config}
    case Creds(Undo(q, _, _)) => {q.config}
    case Creds(UndoWal(q, _, _)) => {q.config}
    case Creds(Commit(q, _, _)) => {q.config}
    case Creds(UndoCommit(q, _, _)) => {q.config}
    case Rotate(MintRoot(c)) => {c}
    case Rotate(VerifyRoot(c, next)) => {c, next}
    case Rotate(PutRoot(c, next)) => {c, next}
    case Rotate(CleanupRoot(c, _)) => {c}
    case Rotate(ResetRoot(_, next)) => {next}
    case Rotate(RevokeOld(_, next)) => {next}
    case Rotate(RecordOld(_, next)) => {next}
    case Write(Probe(c)) => {c}
    case _ => {}
  }

  /** A client that an operation has in its hands. */
  function Held(pc: Proc): Option<AapClient> {
    match pc
    case Revoke(_, BySnapshot(_, snapshot)) => snapshot
    case Revoke(_, StoreClient(_, _, built)) => Some(built.client)
    case Revoke(_, ByCurrent(_, _, current)) => Some(current.client)
    case _ => None
  }

  /** The engine has this configuration: stored, in a record, or in an operation. */
  ghost predicate HasConfig(s: State, c: Config) {
    || s.config == Some(c)
    || (exists src :: Recorded(s, src) && GrantOf(s, src).config == c)
    || (exists p :: p in s.procs && c in ConfigsOf(s.procs[p]))
  }

  /** A request with this client may leave the engine: it is cached, in an operation's hands, or what a
      configuration of the engine yields with some credential. */
  ghost predicate Uses(s: State, k: AapClient) {
    || (s.client.Some? && s.client.value.client == k)
    || (exists p :: p in s.procs && Held(s.procs[p]) == Some(k))
    || (exists c, auth :: HasConfig(s, c) && NewClientWithAuth(s.env, c, auth) == Ok(k))
  }

  ghost predicate HeldAreSecure(s: State) {
    && (s.client.Some? ==> Secure(s.env, s.client.value.client))
    && (forall p :: p in s.procs && Held(s.procs[p]).Some? ==> Secure(s.env, Held(s.procs[p]).value))
  }

  lemma BuiltSecurely(env: Env, c: Config)
    ensures NewClient(env, c).Ok? ==> Secure(env, NewClient(env, c).value)
  {
    if NewClient(env, c).Ok? { var _, _, _ := BuiltIsSecure(env, c, AuthenticatorFromConfig(c).value); }
  }

  lemma KnownIsSecure(s: State, k: Cached)
    requires HeldAreSecure(s) && Known(s, k)
    ensures Secure(s.env, k.client)
  {
    hide NewClient; hide Secure;
    if s.config.Some? { BuiltSecurely(s.env, s.config.value); }
    if exists q :: q in s.procs && InHand(s.procs[q]) == Some(k) {
      var q :| q in s.procs && InHand(s.procs[q]) == Some(k);
      assert Held(s.procs[q]) == Some(k.client);
    }
  }

  /** A revocation tries its snapshot first, and never again. */
  lemma SnapshotIsTriedOnce(s: State, p: Pid, src: Source, r: RevokePc, e: Event)
    requires p in s.procs && s.procs[p] == Revoke(src, r)
    ensures var t := RevokeStep(s, p, src, r, e);
            p in t.procs && t.procs[p].Revoke? && t.procs[p].r.BySnapshot? ==> t.procs[p] == s.procs[p]
  {
    hide NewClient; hide Delete; hide DeleteConfirmed;
  }

  /** The snapshot that a revocation starts with was decoded from its record. */
  lemma SnapshotsFollow(s: State, a: Action, q: Pid)
    requires Inv(s) && q in Next(s, a).procs && Next(s, a).procs[q].Revoke? && Next(s, a).procs[q].r.BySnapshot?
    ensures || (q in s.procs && s.procs[q] == Next(s, a).procs[q])
            || (exists c :: NewClient(s.env, c).Ok? && Next(s, a).procs[q].r.snapshot == Some(NewClient(s.env, c).value))
  {
    hide Inv; hide CredsStep; hide RevokeStep; hide RotateStep; hide WriteStep; hide Grows; hide TargetOf;
    hide AfterCrash; hide NewClient; hide WellFormed;
    if a.Act? {
      StepMovesOne(s, a.p, a.e);
      if q == a.p && q in s.procs {
        match s.procs[q]
        case Creds(c) => CredsGrows(s, q, c, a.e);
        case Revoke(src, r) => SnapshotIsTriedOnce(s, q, src, r, a.e);
        case Rotate(t) => RootOpsStayRootOps(s, q, t, ResetClient, a.e);
        case Write(w) => RootOpsStayRootOps(s, q, LoadRoot, w, a.e);
      } else if q == a.p {
        assert a.e.Begin? && a.e.op.Revoking?;
        TargetIsGrant(s, a.e.op.src);
      }
    }
  }

  lemma StepKeepsSecure(s: State, a: Action)
    requires Inv(s) && HeldAreSecure(s)
    ensures HeldAreSecure(Next(s, a))
  {
    hide Inv; hide Next; hide NewClient; hide Secure; hide Grows;
    StepGrows(s, a);
    StepMovesClients(s, a);
    var t := Next(s, a);
    if t.client.Some? { KnownIsSecure(s, t.client.value); }
    forall q | q in t.procs && Held(t.procs[q]).Some?
      ensures Secure(t.env, Held(t.procs[q]).value)
    {
      if t.procs[q].r.BySnapshot? {
        SnapshotsFollow(s, a, q);
        forall c | NewClient(s.env, c).Ok? ensures Secure(s.env, NewClient(s.env, c).value) { BuiltSecurely(s.env, c); }
      } else {
        KnownIsSecure(s, InHand(t.procs[q]).value);
      }
    }
  }

  lemma {:induction false} RunKeepsSecure(s0: State, actions: seq<Action>)
    requires Initial(s0)
    ensures HeldAreSecure(Run(s0, actions))
  {
    hide Inv; hide Next; hide Secure; hide Initial;
    if actions == [] {
      assert HeldAreSecure(s0) by { NothingHeld(s0); }
    } else {
      var n := |actions| - 1;
      RunKeepsSecure(s0, actions[..n]);
      InitialInv(s0);
      RunKeeps(s0, actions[..n]);
      StepKeepsSecure(Run(s0, actions[..n]), actions[n]);
    }
  }

  lemma NothingHeld(s0: State)
    requires Initial(s0)
    ensures HeldAreSecure(s0)
  {
  }

  /** Whatever operators wrote, whoever rotated, and whichever snapshot a record holds: every client with which a
      request may leave the engine addresses an https endpoint with a host. */
  lemma EveryClientIsSecure(s: State, k: AapClient)
    requires Reachable(s) && Uses(s, k)
    ensures Secure(s.env, k)
  {
    hide Run; hide NewClientWithAuth; hide Secure; hide HasConfig; hide Initial;
    var s0: State, actions: seq<Action> :| Initial(s0) && s == Run(s0, actions);
    RunKeepsSecure(s0, actions);
    if exists c, auth :: HasConfig(s, c) && NewClientWithAuth(s.env, c, auth) == Ok(k) {
      var c, auth :| HasConfig(s, c) && NewClientWithAuth(s.env, c, auth) == Ok(k);
      var _, _, _ := BuiltIsSecure(s.env, c, auth);
    }
  }
}
