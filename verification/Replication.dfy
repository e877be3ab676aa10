/** A configuration that another node of the cluster stored: it arrives by replication, and Vault then calls
    invalidate. */
module Replication {
  import opened Wrappers
  import opened Client
  import opened ConfigWrite
  import opened Aap
  import opened Protocol
  import opened Invariant
  import opened StepKinds
  import opened Lifecycle
  import Effects
  import opened Revocation

  /** The stored configuration has been replaced, or deleted, elsewhere. Nothing in this node's memory has changed. */
  function Replicated(s: State, c: Option<Config>): State {
    StoreConfig(ReleaseRoot(s, 0, if c.Some? then OperatorReplaced else OperatorDeleted), c)
  }

  /** What operators can do on another node: delete the configuration, or write a well-formed one with a credential
      of their own. */
  predicate FromOperator(env: Env, c: Option<Config>) { c.Some? ==> WellFormed(env, c.value) && c.value.tokenId <= 0 }

  lemma {:induction false} FreshPid(pids: set<Pid>) returns (p: Pid)
    ensures forall q :: q in pids ==> q < p
    decreases pids
  {
    p := 0;
    if pids != {} {
      var q :| q in pids;
      var r := FreshPid(pids - {q});
      p := if q < r then r else q + 1;
      forall x | x in pids ensures x < p { if x != q { assert x in pids - {q}; } }
    }
  }

  /** The same change, on its way to storage on this node. */
  function Writing(s: State, p: Pid, w: WritePc): State { s.(configLock := Some(p), procs := s.procs[p := Write(w)]) }

  function Change(c: Option<Config>): WritePc { match c case Some(v) => PutConfig(v) case None => Remove }

  lemma StoresHere(s: State, c: Option<Config>, p: Pid)
    requires c.Some? ==> c.value.tokenId <= 0
    ensures Next(Writing(s, p, Change(c)), Act(p, Succeeds)) == Writing(Replicated(s, c), p, ResetClient)
  {
    hide CredsStep; hide RevokeStep; hide RotateStep; hide Start; hide CrashStep; hide Abandon;
    AbandonsAlike(s, p, c, if c.Some? then OperatorReplaced else OperatorDeleted);
    assert s.procs[p := Write(Change(c))][p := Write(ResetClient)] == s.procs[p := Write(ResetClient)];
  }

  lemma AbandonsAlike(s: State, p: Pid, c: Option<Config>, cause: Cause)
    ensures forall id :: var w := Writing(s, p, Change(c)); Abandon(w, id, cause) == w.(ledger := Abandon(s, id, cause).ledger)
    ensures forall id :: Abandon(s, id, cause) == s.(ledger := Abandon(s, id, cause).ledger)
  {
  }

  lemma ResetsHere(u: State, p: Pid)
    requires u.configLock == None && u.lock == None && p !in u.procs
    ensures Next(Writing(u, p, ResetClient), Act(p, Succeeds)) == Next(u, Invalidate)
  {
    hide CredsStep; hide RevokeStep; hide RotateStep; hide Start; hide CrashStep;
    assert u.procs[p := Write(ResetClient)] - {p} == u.procs;
  }

  lemma WriteBegins(s: State, c: Option<Config>, p: Pid)
    requires Inv(s) && s.configLock == None && p !in s.procs && FromOperator(s.env, c)
    ensures Inv(Writing(s, p, Change(c)))
  {
    hide Inv; hide WellFormed;
    BegunKeeps(s, Writing(s, p, Change(c)), p);
  }

  /** Once Vault's invalidation has been served, the node is coherent again, as if it had stored the change itself and
      reset: its invariant holds, nothing is cached, no reset is pending, and every getClient that is begun from then
      on, in any run, yields a client no older than the replicated configuration, and the stored one's own while its
      version is the present one. */
  lemma InvalidationRestores(s: State, c: Option<Config>)
    requires Inv(s) && s.configLock == None && s.lock == None && FromOperator(s.env, c)
    ensures var t := Next(Replicated(s, c), Invalidate);
            Inv(t) && t.config == c && t.client == None && !ResetPending(t) && t.settled == t.version == s.version + 1
    ensures var t := Next(Replicated(s, c), Invalidate);
            forall actions: seq<Action>, p, src, id, since, current ::
              FetchesSince(t, actions, p, src, id, since, current) ==>
                && current.version >= t.version
                && (current.version == Run(t, actions).version ==>
                      Run(t, actions).config.Some?
                          && NewClient(t.env, Run(t, actions).config.value) == Ok(current.client))
  {
    hide Inv; hide Next; hide Run; hide NewClient; hide WellFormed; hide FetchesSince; hide Replicated; hide Writing;
    hide Change;
    var p := FreshPid(s.procs.Keys);
    var u, t := Replicated(s, c), Next(Replicated(s, c), Invalidate);
    ReplicatedFacts(s, c);
    WriteBegins(s, c, p);
    StoresHere(s, c, p);
    ResetsHere(u, p);
    NextKeeps(Writing(s, p, Change(c)), Act(p, Succeeds));
    NextKeeps(Writing(u, p, ResetClient), Act(p, Succeeds));
    forall actions: seq<Action>, q, src, id, since, current | FetchesSince(t, actions, q, src, id, since, current)
      ensures current.version >= t.version
      ensures current.version == Run(t, actions).version ==>
                Run(t, actions).config.Some? && NewClient(t.env, Run(t, actions).config.value) == Ok(current.client)
    {
      FetchedIsFresh(t, actions, q, src, id, since, current);
    }
  }

  /** In this run, operation p has been handed this client by a getClient begun when `since` was settled, at t or later. */
  ghost predicate FetchesSince(t: State, actions: seq<Action>, p: Pid, src: Source, id: int, since: nat,
      current: Cached) {
    var u := Run(t, actions);
    since >= t.settled && p in u.procs && u.procs[p] == Revoke(src, ByCurrent(id, since, current))
  }

  lemma FetchedIsFresh(t: State, actions: seq<Action>, p: Pid, src: Source, id: int, since: nat, current: Cached)
    requires Inv(t) && t.settled == t.version && FetchesSince(t, actions, p, src, id, since, current)
    ensures current.version >= t.version
    ensures var u := Run(t, actions);
            current.version == u.version ==> u.config.Some? && NewClient(t.env, u.config.value) == Ok(current.client)
  {
    hide Inv; hide Run; hide NewClient;
    RunKeeps(t, actions);
    RunKeepsEnv(t, actions);
    Knows(Run(t, actions), p);
  }

  lemma {:induction false} RunKeepsEnv(t: State, actions: seq<Action>)
    requires Inv(t)
    ensures Run(t, actions).env == t.env
  {
    hide Inv; hide Next;
    if actions != [] {
      var n := |actions| - 1;
      RunKeepsEnv(t, actions[..n]);
      RunKeeps(t, actions[..n]);
      Effects.StepGrows(Run(t, actions[..n]), actions[n]);
    }
  }

  lemma ReplicatedFacts(s: State, c: Option<Config>)
    requires s.configLock == None && s.lock == None
    ensures var u, t := Replicated(s, c), Next(Replicated(s, c), Invalidate);
            && u.configLock == None && u.lock == None && u.procs == s.procs
            && t.config == c && t.client == None && t.settled == t.version == s.version + 1 && !ResetPending(t)
  {
    hide CredsStep; hide RevokeStep; hide RotateStep; hide WriteStep; hide Start; hide CrashStep;
  }

  /** Without the invalidation a cached client stays: getClient then hands out one of the configuration before. */
  lemma StaleUntilInvalidated(s: State, c: Option<Config>, p: Pid, src: Source, id: int, since: nat)
    requires s.lock == None && s.client.Some? && p in s.procs && s.procs[p] == Revoke(src, CheckCache(id, since))
    ensures var u := Next(Replicated(s, c), Act(p, Succeeds));
            p in u.procs && u.procs[p] == Revoke(src, ByCurrent(id, since, s.client.value)) && u.config == c
  {
    hide CredsStep; hide RotateStep; hide WriteStep; hide Start; hide CrashStep; hide NewClient;
  }
}
