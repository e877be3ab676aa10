/** Every run of the whole machine is, for the stored configuration, a run of the events of ConfigRuns: the
    writes, deletes and rotations whose storage step succeeded, in that order, with everything else of them
    and of all other operations in between. */
module ConfigHistory {
  import opened Wrappers
  import opened Client
  import opened ConfigWrite
  import opened Aap
  import opened Protocol
  import opened Invariant
  import opened StepKinds
  import opened Lifecycle
  import opened Effects
  import opened Progress
  import Runs = ConfigRuns

  // ----- What an event stands for

  /** This step merges the fields of a write, dispatched as a create or as an update, into the stored configuration. */
  predicate MergesNow(s: State, a: Action, create: bool, fields: Fields) {
    a.Act? && a.p in s.procs && s.procs[a.p] == Write(Merge(create, fields)) && a.e.Succeeds?
  }

  ghost predicate MergedIn(s0: State, actions: seq<Action>, create: bool, fields: Fields) {
    exists k :: 0 <= k < |actions| && MergesNow(Run(s0, actions[..k]), actions[k], create, fields)
  }

  ghost predicate Happened(s0: State, actions: seq<Action>, e: Runs.Event) {
    match e
    case Write(create, fields, probeSucceeds) => probeSucceeds && MergedIn(s0, actions, create, fields)
    case Rotate(secret, id) => id in Run(s0, actions).aap.tokens && Run(s0, actions).aap.tokens[id].secret == secret
    case Delete => true
  }

  /** Whenever a create is merged, nothing is stored: the existence check that dispatched it still held. */
  ghost predicate CreatesWereFresh(s0: State, actions: seq<Action>) {
    forall k :: 0 <= k < |actions| ==> FreshNow(Run(s0, actions[..k]), actions[k])
  }

  predicate FreshNow(s: State, a: Action) {
    a.Act? && a.p in s.procs && s.procs[a.p].Write? && s.procs[a.p].w.Merge? && s.procs[a.p].w.create ==> s.config.None?
  }

  // ----- A history that keeps up with the run

  /** The configuration is the outcome of a write of this run, merged while the stored one was as it is. */
  ghost predicate Accepted(s: State, s0: State, actions: seq<Action>, c: Config, timely: bool) {
    exists create, fields ::
      && Accept(s.env, s.config, create, fields) == Ok(c) && MergedIn(s0, actions, create, fields)
      && (timely && create ==> s.config.None?)
  }

  /** What a root operation on its way to its storage step still needs. */
  ghost predicate Pending(s: State, s0: State, actions: seq<Action>, pc: Proc, issued: map<int, string>, timely: bool) {
    match pc
    case Rotate(VerifyRoot(_, next)) => next.tokenId !in issued
    case Rotate(PutRoot(_, next)) => next.tokenId !in issued
    case Write(Probe(c)) => Accepted(s, s0, actions, c, timely)
    case Write(PutConfig(c)) => Accepted(s, s0, actions, c, timely)
    case _ => true
  }

  ghost predicate AllPending(s: State, s0: State, actions: seq<Action>, issued: map<int, string>, timely: bool) {
    forall p :: p in s.procs ==> Pending(s, s0, actions, s.procs[p], issued, timely)
  }

  ghost predicate Issued(a: Server, issued: map<int, string>) {
    forall id :: id in issued ==> id in a.tokens && a.tokens[id].secret == issued[id]
  }

  ghost predicate Tracks(s: State, s0: State, actions: seq<Action>, h: Runs.History, timely: bool) {
    h.config == s.config && Issued(s.aap, h.issued) && AllPending(s, s0, actions, h.issued, timely)
  }

  // ----- Facts survive

  lemma MergedStays(s0: State, actions: seq<Action>, a: Action, create: bool, fields: Fields)
    requires MergedIn(s0, actions, create, fields)
    ensures MergedIn(s0, actions + [a], create, fields)
  {
    hide Run; hide MergesNow;
    var k :| 0 <= k < |actions| && MergesNow(Run(s0, actions[..k]), actions[k], create, fields);
    assert (actions + [a])[..k] == actions[..k] && (actions + [a])[k] == actions[k];
  }

  lemma MergedNow(s0: State, actions: seq<Action>, a: Action, create: bool, fields: Fields)
    requires MergesNow(Run(s0, actions), a, create, fields)
    ensures MergedIn(s0, actions + [a], create, fields)
  {
    hide Run; hide MergesNow;
    var k := |actions|;
    assert (actions + [a])[..k] == actions && (actions + [a])[k] == a;
  }

  lemma AcceptedStays(s: State, t: State, s0: State, actions: seq<Action>, a: Action, c: Config, timely: bool)
    requires Accepted(s, s0, actions, c, timely) && t.env == s.env && t.config == s.config
    ensures Accepted(t, s0, actions + [a], c, timely)
  {
    hide MergedIn; hide Accept;
    var create, fields :| Accept(s.env, s.config, create, fields) == Ok(c) && MergedIn(s0, actions, create, fields)
      && (timely && create ==> s.config.None?);
    MergedStays(s0, actions, a, create, fields);
  }

  lemma PendingStays(s: State, t: State, s0: State, actions: seq<Action>, a: Action, pc: Proc, issued: map<int,
      string>, timely: bool)
    requires Pending(s, s0, actions, pc, issued, timely) && t.env == s.env && t.config == s.config
    ensures Pending(t, s0, actions + [a], pc, issued, timely)
  {
    hide Accepted;
    match pc
    case Write(Probe(c)) => AcceptedStays(s, t, s0, actions, a, c, timely);
    case Write(PutConfig(c)) => AcceptedStays(s, t, s0, actions, a, c, timely);
    case _ =>
  }

  lemma IssuedStays(a: Server, b: Server, issued: map<int, string>)
    requires Issued(a, issued) && KeepsTokens(a, b)
    ensures Issued(b, issued)
  {
  }

  lemma HappenedStays(s0: State, actions: seq<Action>, a: Action, e: Runs.Event)
    requires Initial(s0) && Happened(s0, actions, e)
    ensures Happened(s0, actions + [a], e)
  {
    hide Next; hide Inv; hide MergedIn;
    assert (actions + [a])[..|actions|] == actions;
    InitialInv(s0);
    RunKeeps(s0, actions);
    NextKeepsTokens(Run(s0, actions), a);
    if e.Write? { MergedStays(s0, actions, a, e.create, e.fields); }
  }

  // ----- Steps that store nothing

  /** A rotation holds a new token only if it did so before, or has just minted it. */
  ghost predicate StillPending(s: State, u: State, p: Pid, t: RotatePc) {
    && u.config == s.config && (p in u.procs ==> u.procs[p].Rotate?)
    && (p in u.procs && HoldsNew(u.procs[p]) ==>
          || (HoldsNew(Rotate(t)) && u.procs[p].t.next == t.next)
          || (t.MintRoot? && u.procs[p].t.next.tokenId == s.aap.nextId))
  }

  lemma MintRootPends(s: State, p: Pid, config: Config, e: Event)
    requires p in s.procs && s.procs[p] == Rotate(MintRoot(config))
    ensures StillPending(s, MintRootStep(s, p, config, e), p, MintRoot(config))
  {
    hide NewClient; hide Creates; hide Post;
  }

  lemma RotationStaysPending(s: State, p: Pid, t: RotatePc, e: Event)
    requires p in s.procs && s.procs[p] == Rotate(t) && !(t.PutRoot? && e.Succeeds?)
    ensures StillPending(s, RotateStep(s, p, t, e), p, t)
  {
    hide NewClient; hide Delete; hide DeleteConfirmed; hide Works; hide MintRootStep;
    if t.MintRoot? { MintRootPends(s, p, t.config, e); }
  }

  lemma WriteStaysPending(s: State, p: Pid, w: WritePc, e: Event)
    requires p in s.procs && s.procs[p] == Write(w) && !((w.PutConfig? || w.Remove?) && e.Succeeds?)
    ensures var u := WriteStep(s, p, w, e);
            && u.config == s.config && u.env == s.env
            && (p in u.procs ==> u.procs[p].Write?)
            && (p in u.procs && (u.procs[p].w.Probe? || u.procs[p].w.PutConfig?) ==>
                  || ((w.Probe? || w.PutConfig?) && u.procs[p].w.config == w.config)
                  || (w.Merge? && e.Succeeds?
                      && Accept(s.env, s.config, w.create, w.fields) == Ok(u.procs[p].w.config)))
  {
    hide NewClient; hide Works; hide Accept;
  }

  /** The step succeeds at writing the configuration. */
  predicate Stores(s: State, a: Action) {
    && a.Act? && a.p in s.procs && a.e.Succeeds?
    && ((s.procs[a.p].Rotate? && s.procs[a.p].t.PutRoot?) || (s.procs[a.p].Write? && (s.procs[a.p].w.PutConfig?
        || s.procs[a.p].w.Remove?)))
  }

  lemma ConfigStays(s: State, a: Action)
    requires Inv(s) && !Stores(s, a)
    ensures Next(s, a).config == s.config && Next(s, a).env == s.env
  {
    hide Inv; hide CredsStep; hide RevokeStep; hide RotateStep; hide WriteStep; hide TargetOf; hide Grows;
    hide AfterCrash;
    StepGrows(s, a);
    if a.Act? && a.p in s.procs {
      match s.procs[a.p]
      case Rotate(t) => RotationStaysPending(s, a.p, t, a.e);
      case Write(w) => WriteStaysPending(s, a.p, w, a.e);
      case _ =>
    }
  }

  lemma ActorStaysPending(s: State, s0: State, actions: seq<Action>, a: Action, h: Runs.History, timely: bool)
    requires Inv(s) && s == Run(s0, actions) && Tracks(s, s0, actions, h, timely) && (timely ==> FreshNow(s, a)) && !Stores(s, a)
    requires a.Act? && a.p in s.procs && a.p in Next(s, a).procs
    ensures Pending(Next(s, a), s0, actions + [a], Next(s, a).procs[a.p], h.issued, timely)
  {
    hide Run; hide Inv; hide CredsStep; hide RevokeStep; hide RotateStep; hide WriteStep; hide Grows; hide Accepted;
    hide Accept;
    ConfigStays(s, a);
    NextIdIsNew(s);
    assert Pending(s, s0, actions, s.procs[a.p], h.issued, timely);
    PendingStays(s, Next(s, a), s0, actions, a, s.procs[a.p], h.issued, timely);
    match s.procs[a.p]
    case Creds(c) => CredsGrows(s, a.p, c, a.e);
    case Revoke(src, r) => RevokeGrows(s, a.p, src, r, a.e);
    case Rotate(t) => RotationStaysPending(s, a.p, t, a.e);
    case Write(w) =>
      WriteStaysPending(s, a.p, w, a.e);
      if w.Merge? && a.e.Succeeds? && Accept(s.env, s.config, w.create, w.fields).Ok? {
        JustAccepted(s, s0, actions, a, w.create, w.fields, timely);
      }
  }

  lemma JustAccepted(s: State, s0: State, actions: seq<Action>, a: Action, create: bool, fields: Fields, timely: bool)
    requires Inv(s) && s == Run(s0, actions) && MergesNow(s, a, create, fields)
        && Accept(s.env, s.config, create, fields).Ok?
    requires timely ==> FreshNow(s, a)
    ensures Accepted(Next(s, a), s0, actions + [a], Accept(s.env, s.config, create, fields).value, timely)
  {
    hide Run; hide Inv; hide Next; hide Accept; hide MergedIn;
    ConfigStays(s, a);
    MergedNow(s0, actions, a, create, fields);
  }

  lemma StaysTracked(s: State, s0: State, actions: seq<Action>, a: Action, h: Runs.History, timely: bool)
    requires Inv(s) && s == Run(s0, actions) && Tracks(s, s0, actions, h, timely) && (timely ==> FreshNow(s, a)) && !Stores(s, a)
    ensures Tracks(Next(s, a), s0, actions + [a], h, timely)
  {
    hide Run; hide Inv; hide Next; hide Pending; hide FreshNow; hide Stores; hide Issued;
    ConfigStays(s, a);
    NextKeepsTokens(s, a);
    IssuedStays(s.aap, Next(s, a).aap, h.issued);
    forall p | p in Next(s, a).procs
      ensures Pending(Next(s, a), s0, actions + [a], Next(s, a).procs[p], h.issued, timely)
    {
      if a.Act? && a.p == p && p in s.procs {
        ActorStaysPending(s, s0, actions, a, h, timely);
      } else {
        OtherStaysPending(s, s0, actions, a, h, timely, p);
      }
    }
  }

  lemma OtherStaysPending(s: State, s0: State, actions: seq<Action>, a: Action, h: Runs.History, timely: bool, p: Pid)
    requires Inv(s) && Tracks(s, s0, actions, h, timely) && Next(s, a).config == s.config && Next(s, a).env == s.env
    requires p in Next(s, a).procs && !(a.Act? && a.p == p && p in s.procs)
    ensures Pending(Next(s, a), s0, actions + [a], Next(s, a).procs[p], h.issued, timely)
  {
    hide Run; hide Inv; hide CredsStep; hide RevokeStep; hide RotateStep; hide WriteStep; hide Accepted; hide TargetOf;
    hide AfterCrash;
    if a.Act? { StepMovesOne(s, a.p, a.e); }
    if p in s.procs {
      assert Pending(s, s0, actions, s.procs[p], h.issued, timely);
      PendingStays(s, Next(s, a), s0, actions, a, s.procs[p], h.issued, timely);
    }
  }

  // ----- Steps that store

  /** Only one root operation is in flight at a time. */
  lemma AloneUnderLock(s: State, p: Pid, q: Pid)
    requires Inv(s) && p in s.procs && q in s.procs && IsRootOp(s.procs[p]) && IsRootOp(s.procs[q])
    ensures p == q
  {
    hide WellFormed; hide NewClient; hide SharedOk;
    assert ProcOk(s, p, s.procs[p]) && ProcOk(s, q, s.procs[q]);
  }

  /** After the storage step nothing is on its way to another one. */
  lemma NonePending(s: State, s0: State, actions: seq<Action>, a: Action, issued: map<int, string>, timely: bool)
    requires Inv(s) && Stores(s, a)
    ensures AllPending(Next(s, a), s0, actions + [a], issued, timely)
  {
    hide Inv; hide Run; hide Accepted; hide CredsStep; hide RevokeStep; hide NewClient; hide Works; hide Accept;
    StepMovesOne(s, a.p, a.e);
    forall p | p in Next(s, a).procs
      ensures Pending(Next(s, a), s0, actions + [a], Next(s, a).procs[p], issued, timely)
    {
      if p in s.procs && IsRootOp(s.procs[p]) { AloneUnderLock(s, a.p, p); }
    }
  }

  /** The event this storage step is. */
  lemma StoresEvent(s: State, s0: State, actions: seq<Action>, a: Action, h: Runs.History, timely: bool)
      returns (e: Runs.Event)
    requires Inv(s) && Tracks(s, s0, actions, h, timely) && Stores(s, a)
    ensures Runs.Possible(h, e) && Runs.Apply(s.env, h, e).config == Next(s, a).config
    ensures Issued(s.aap, Runs.Apply(s.env, h, e).issued)
    ensures match e
            case Write(create, fields, ok) => ok && MergedIn(s0, actions, create, fields) && (timely && create ==> h.config.None?)
            case Rotate(secret, id) => id in s.aap.tokens && s.aap.tokens[id].secret == secret
            case Delete => true
  {
    hide Inv; hide Run; hide CredsStep; hide RevokeStep; hide NewClient; hide Works; hide Accept; hide MergedIn;
    assert Pending(s, s0, actions, s.procs[a.p], h.issued, timely);
    if s.procs[a.p].Rotate? {
      var next := s.procs[a.p].t.next;
      RootInHand(s, a.p);
      e := Runs.Event.Rotate(next.token, next.tokenId);
    } else if s.procs[a.p].w.Remove? {
      e := Runs.Event.Delete;
    } else {
      var c := s.procs[a.p].w.config;
      var create, fields :| Accept(s.env, s.config, create, fields) == Ok(c) && MergedIn(s0, actions, create, fields)
        && (timely && create ==> s.config.None?);
      e := Runs.Event.Write(create, fields, true);
    }
  }

  lemma RootInHand(s: State, p: Pid)
    requires Inv(s) && p in s.procs && s.procs[p].Rotate? && s.procs[p].t.PutRoot?
    ensures var config, next := s.procs[p].t.config, s.procs[p].t.next;
            && s.config == Some(config) && config.token != ""
                && next == config.(token := next.token, tokenId := next.tokenId)
            && next.tokenId > 0 && next.token != "" && next.tokenId in s.aap.tokens
                && s.aap.tokens[next.tokenId].secret == next.token
  {
    hide WellFormed; hide NewClient; hide WalOk; hide LeasesOk; hide RootOk; hide LedgerOk; hide LocksOk; hide CacheOk;
    assert ProcOk(s, p, s.procs[p]);
  }

  // ----- Appending an event

  lemma {:induction false} OneMore(env: Env, h: Runs.History, events: seq<Runs.Event>, e: Runs.Event)
    requires Runs.PossibleRun(env, h, events) && Runs.Possible(Runs.After(env, h, events), e)
    ensures Runs.PossibleRun(env, h, events + [e])
    ensures Runs.After(env, h, events + [e]) == Runs.Apply(env, Runs.After(env, h, events), e)
    ensures Runs.CreatesAreFresh(env, h, events) && (e.Write? && e.create ==> Runs.After(env, h, events).config.None?) ==>
              Runs.CreatesAreFresh(env, h, events + [e])
    decreases |events|
  {
    hide Runs.Apply; hide Runs.Possible;
    if events == [] {
      assert events + [e] == [e];
    } else {
      OneMore(env, Runs.Apply(env, h, events[0]), events[1..], e);
      assert (events + [e])[1..] == events[1..] + [e];
    }
  }

  // ----- Every run

  const NOTHING := Runs.History(None, EMPTY_CONFIG, map[])

  ghost predicate IsHistory(s0: State, actions: seq<Action>, events: seq<Runs.Event>, timely: bool) {
    && Runs.PossibleRun(s0.env, NOTHING, events)
    && Tracks(Run(s0, actions), s0, actions, Runs.After(s0.env, NOTHING, events), timely)
    && (forall e :: e in events ==> Happened(s0, actions, e))
    && (timely ==> Runs.CreatesAreFresh(s0.env, NOTHING, events))
  }

  lemma StepExtends(s0: State, actions: seq<Action>, a: Action, events: seq<Runs.Event>, timely: bool)
      returns (more: seq<Runs.Event>)
    requires Initial(s0) && Inv(Run(s0, actions)) && IsHistory(s0, actions, events, timely)
    requires Run(s0, actions).env == s0.env && Run(s0, actions + [a]) == Next(Run(s0, actions), a)
    requires timely ==> FreshNow(Run(s0, actions), a)
    ensures IsHistory(s0, actions + [a], more, timely)
  {
    hide Run; hide Inv; hide Next; hide FreshNow; hide Stores; hide Happened; hide AllPending; hide Initial;
    hide Runs.Apply; hide Runs.PossibleRun; hide Runs.After; hide Runs.CreatesAreFresh;
    var s := Run(s0, actions);
    forall e | e in events ensures Happened(s0, actions + [a], e) { HappenedStays(s0, actions, a, e); }
    if Stores(s, a) {
      more := ExtendByStore(s0, actions, a, events, timely);
    } else {
      StaysTracked(s, s0, actions, a, Runs.After(s0.env, NOTHING, events), timely);
      more := events;
    }
  }

  lemma ExtendByStore(s0: State, actions: seq<Action>, a: Action, events: seq<Runs.Event>, timely: bool)
      returns (more: seq<Runs.Event>)
    requires Initial(s0) && Inv(Run(s0, actions)) && IsHistory(s0, actions, events, timely)
        && Stores(Run(s0, actions), a)
    requires Run(s0, actions).env == s0.env && Run(s0, actions + [a]) == Next(Run(s0, actions), a)
    requires forall e :: e in events ==> Happened(s0, actions + [a], e)
    ensures IsHistory(s0, actions + [a], more, timely)
  {
    hide Run; hide Inv; hide Next; hide Stores; hide AllPending; hide Initial; hide MergedIn; hide Issued;
    hide Runs.Apply; hide Runs.PossibleRun; hide Runs.After; hide Runs.CreatesAreFresh; hide Runs.Possible;
    var s := Run(s0, actions);
    var h := Runs.After(s0.env, NOTHING, events);
    var e := StoresEvent(s, s0, actions, a, h, timely);
    OneMore(s0.env, NOTHING, events, e);
    NextKeepsTokens(s, a);
    IssuedStays(s.aap, Next(s, a).aap, Runs.Apply(s0.env, h, e).issued);
    NonePending(s, s0, actions, a, Runs.Apply(s0.env, h, e).issued, timely);
    if e.Write? { MergedStays(s0, actions, a, e.create, e.fields); }
    more := events + [e];
  }

  lemma {:induction false} Extends(s0: State, actions: seq<Action>, timely: bool) returns (events: seq<Runs.Event>)
    requires Initial(s0) && (timely ==> CreatesWereFresh(s0, actions))
    ensures IsHistory(s0, actions, events, timely) && Run(s0, actions).env == s0.env
  {
    hide Inv; hide Next; hide FreshNow; hide IsHistory;
    if actions == [] {
      events := [];
      assert IsHistory(s0, actions, events, timely) by { StartsEmpty(s0, timely); }
    } else {
      var n := |actions| - 1;
      var init, a := actions[..n], actions[n];
      assert actions == init + [a];
      forall k | 0 <= k < n ensures init[..k] == actions[..k] { }
      var past := Extends(s0, init, timely);
      InitialInv(s0);
      RunKeeps(s0, init);
      StepGrows(Run(s0, init), a);
      events := StepExtends(s0, init, a, past, timely);
    }
  }

  lemma StartsEmpty(s0: State, timely: bool)
    requires Initial(s0)
    ensures IsHistory(s0, [], [], timely)
  {
  }

  /** Every run of the whole machine has such a history, each of its writes a write of the run and each of its
      rotations a token of AAP. So whatever interleaved, the stored configuration has one complete scheme and an
      id only for the secret AAP issued under it; and if no create was merged over a stored configuration, its
      secret was supplied for, or minted on, the connection it is stored with. */
  lemma EveryRunIsAHistory(s0: State, actions: seq<Action>) returns (events: seq<Runs.Event>)
    requires Initial(s0)
    ensures Runs.PossibleRun(s0.env, NOTHING, events) && forall e :: e in events ==> Happened(s0, actions, e)
    ensures var h := Runs.After(s0.env, NOTHING, events);
            && h.config == Run(s0, actions).config && Runs.ConfigInvariant(s0.env, h)
            && (CreatesWereFresh(s0, actions) ==> Runs.CreatesAreFresh(s0.env, NOTHING, events) && Runs.Provenance(h))
  {
    hide Run; hide Initial; hide Happened; hide FreshNow;
    events := Extends(s0, actions, forall k :: 0 <= k < |actions| ==> FreshNow(Run(s0, actions[..k]), actions[k]));
    Runs.EveryRunKeepsConfig(s0.env, NOTHING, events);
  }
}
